/** The pytest plugin's collection hook, `pytest_collection_modifyitems`:
    it only ever adds skip markers to collected items. */
module TestPlugin {
  import opened Results

  /** A pytest marker, such as `pytest.mark.skip(reason=...)`. */
  datatype Marker = Marker(name: string, reason: string)

  /** The options the hook reads: `--e2e` and `--framework`. */
  datatype Options = Options(e2e: bool, framework: Option<string>)

  const FrameworkMarkers: set<string> := {"crewai", "langgraph", "strands"}

  function SkipE2e(): Marker {
    Marker("skip", "E2E tests disabled (need --e2e flag)")
  }

  /** The framework skip marker; its reason renders the filter as Python's
      f-string does, so an unset filter reads "None". */
  function SkipFramework(filter: Option<string>): Marker {
    Marker("skip", "Test not for framework '" + (if filter.Some? then filter.value else "None") + "' (--framework filter)")
  }

  /** A collected test item: its keywords (marker names among them) and the
      markers added to it, in order. */
  class Item {
    var keywords: set<string>
    var markers: seq<Marker>

    constructor (keywords: set<string>)
      ensures this.keywords == keywords && markers == []
    {
      this.keywords := keywords;
      markers := [];
    }

    /** `add_marker`: appends the marker, whose name becomes a keyword. */
    method AddMarker(m: Marker)
      modifies this
      ensures markers == old(markers) + [m]
      ensures keywords == old(keywords) + {m.name}
    {
      markers := markers + [m];
      keywords := keywords + {m.name};
    }
  }

  /** The item is marked with some framework but not with the filtered one. */
  predicate OtherFramework(keywords: set<string>, filter: string) {
    FrameworkMarkers * keywords != {} && filter !in FrameworkMarkers * keywords
  }

  /** The markers the hook adds to an item with these keywords. */
  function NewMarkers(keywords: set<string>, opts: Options): seq<Marker> {
    (if "e2e" in keywords && !opts.e2e then [SkipE2e()] else [])
    + (if Truthy(opts.framework) && OtherFramework(keywords, opts.framework.value)
       then [SkipFramework(opts.framework)] else [])
  }

  /** The keywords the added markers contribute. */
  function NewKeywords(markers: seq<Marker>): set<string> {
    set m | m in markers :: m.name
  }

  /** `pytest_collection_modifyitems`: walks the items in order and adds the
      e2e skip marker and then the framework skip marker where they apply.
      The list itself is left as it is; only the items' markers (and the
      keywords their names add) change. */
  method CollectionModifyItems(opts: Options, items: seq<Item>)
    requires forall i, j :: 0 <= i < j < |items| ==> items[i] != items[j]
    modifies items
    ensures forall i :: 0 <= i < |items| ==>
      items[i].markers == old(items[i].markers) + NewMarkers(old(items[i].keywords), opts)
    ensures forall i :: 0 <= i < |items| ==>
      items[i].keywords == old(items[i].keywords) + NewKeywords(NewMarkers(old(items[i].keywords), opts))
  {
    var skipE2e := SkipE2e();
    var skipFramework := SkipFramework(opts.framework);
    for i := 0 to |items|
      invariant forall k :: 0 <= k < i ==>
        items[k].markers == old(items[k].markers) + NewMarkers(old(items[k].keywords), opts)
      invariant forall k :: 0 <= k < i ==>
        items[k].keywords == old(items[k].keywords) + NewKeywords(NewMarkers(old(items[k].keywords), opts))
      invariant forall k :: i <= k < |items| ==>
        items[k].markers == old(items[k].markers) && items[k].keywords == old(items[k].keywords)
    {
      var item := items[i];
      ghost var keywords := item.keywords;
      if "e2e" in item.keywords && !opts.e2e {
        item.AddMarker(skipE2e);
      }
      assert FrameworkMarkers * item.keywords == FrameworkMarkers * keywords;
      if opts.framework.Some? && opts.framework.value != "" {
        var testFrameworks := FrameworkMarkers * item.keywords;
        if testFrameworks != {} && opts.framework.value !in testFrameworks {
          item.AddMarker(skipFramework);
        }
      }
      assert item.markers == old(item.markers) + NewMarkers(keywords, opts);
    }
  }

  // ---------------------------------------------------------------------
  // The skip rule

  /** An item gets the e2e skip marker exactly when it has the `e2e` keyword
      and `--e2e` is not set. */
  lemma E2eSkipIff(keywords: set<string>, opts: Options)
    ensures SkipE2e() in NewMarkers(keywords, opts) <==> "e2e" in keywords && !opts.e2e
  {
    assert SkipE2e().reason[0] != SkipFramework(opts.framework).reason[0];
  }

  /** With `--framework` unset or empty no item gets the framework skip marker. */
  lemma NoFilterNoFrameworkSkip(keywords: set<string>, opts: Options)
    requires !Truthy(opts.framework)
    ensures forall m :: m in NewMarkers(keywords, opts) ==> m == SkipE2e()
  {
  }

  /** With `--framework=f` an item gets the framework skip marker exactly when
      it carries some framework keyword and `f` is not among its framework
      keywords; an item with no framework keyword is never skipped by it. */
  lemma FrameworkSkipIff(keywords: set<string>, opts: Options)
    requires Truthy(opts.framework)
    ensures var f := opts.framework.value;
      SkipFramework(opts.framework) in NewMarkers(keywords, opts)
      <==> (exists fw :: fw in FrameworkMarkers && fw in keywords) && !(f in FrameworkMarkers && f in keywords)
  {
    var f := opts.framework.value;
    assert SkipE2e().reason[0] != SkipFramework(opts.framework).reason[0];
    if exists fw :: fw in FrameworkMarkers && fw in keywords {
      var fw :| fw in FrameworkMarkers && fw in keywords;
      assert fw in FrameworkMarkers * keywords;
    }
  }

  /** At most one marker of each kind, the e2e one first. */
  lemma AtMostOneOfEach(keywords: set<string>, opts: Options)
    ensures var ms := NewMarkers(keywords, opts);
      && |ms| <= 2
      && (forall i :: 0 <= i < |ms| ==> ms[i] == SkipE2e() || ms[i] == SkipFramework(opts.framework))
      && (|ms| == 2 ==> ms[0] == SkipE2e() && ms[1] == SkipFramework(opts.framework))
  {
  }

  /** Every marker the hook adds is a skip marker, so the only keyword it adds is "skip". */
  lemma OnlySkipAdded(keywords: set<string>, opts: Options)
    ensures NewKeywords(NewMarkers(keywords, opts)) <= {"skip"}
    ensures NewKeywords(NewMarkers(keywords, opts)) == {} <==> NewMarkers(keywords, opts) == []
  {
    var ms := NewMarkers(keywords, opts);
    if ms != [] {
      assert ms[0].name in NewKeywords(ms);
    }
  }
}
