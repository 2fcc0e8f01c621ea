/**
 * What `SelectionField.prepare` (tw2/forms/widgets.py) promises about the lists it builds,
 * proved of the reference definition in OptionNormaliser: first for any entry
 * view and option step, then for the ones `prepare` uses.
 */
module OptionProperties {
  import opened PyValues
  import opened Decimal
  import opened OptionNormaliser

  // ---------------------------------------------------------------------------
  // The entry loop, for any view and step

  /** Group `grp` is entry `i` of `entries`: same label, and exactly that entry's slice of the flat list. */
  predicate GroupAt(view: Value -> EntryView, entries: seq<Value>, flat: seq<NormalisedOption>, i: nat, grp: OptionGroup) {
    && i < |entries|
    && IsGroupEntry(view, entries, i)
    && Start(view, entries, i) <= Start(view, entries, i + 1) <= |flat|
    && grp == OptionGroup(view(entries[i]).caption, flat[Start(view, entries, i)..Start(view, entries, i + 1)])
  }

  /** No entry fails to be indexed. */
  predicate Indexable(view: Value -> EntryView, entries: seq<Value>) {
    forall i :: 0 <= i < |entries| ==> !view(entries[i]).Unindexable?
  }

  /** The step succeeds on every inner option spec of `entries`. */
  predicate StepsSucceed(view: Value -> EntryView, step: OptionStep, entries: seq<Value>) {
    AllSucceed(step, InnerOptions(view, entries), 0)
  }

  lemma StartOfPrefix(view: Value -> EntryView, entries: seq<Value>, n: nat, i: nat)
    requires i <= n <= |entries|
    ensures Start(view, entries, i) == Start(view, entries[..n], i)
  {
    assert entries[..n][..i] == entries[..i];
  }

  /** The inner options of all entries are those of all but the last, then the last entry's. */
  lemma InnerOptionsLast(view: Value -> EntryView, entries: seq<Value>)
    requires entries != []
    ensures var n := |entries| - 1; var e := view(entries[n]);
      && Start(view, entries, n) == |InnerOptions(view, entries[..n])|
      && Start(view, entries, n + 1) == |InnerOptions(view, entries)|
      && InnerOptions(view, entries) == InnerOptions(view, entries[..n]) + if e.Indexed? then e.opts else []
  {
    assert entries[..|entries|] == entries;
  }

  /** The accumulated flat list has one option per inner option spec. */
  lemma {:induction false} EntriesLength(view: Value -> EntryView, step: OptionStep, entries: seq<Value>)
    requires WellFormed(view, entries) && NormaliseEntries(view, step, entries).Ok?
    ensures |NormaliseEntries(view, step, entries).value.flat| == |InnerOptions(view, entries)|
  {
    if entries != [] {
      var n := |entries| - 1;
      WellFormedPrefix(view, entries, n);
      EntriesLength(view, step, entries[..n]);
      var e := view(entries[n]);
      NormaliseListLength(step, e.opts, |NormaliseEntries(view, step, entries[..n]).value.flat|);
    }
  }

  /**
   * The accumulated flat list after all entries normalises every inner option
   * at its own position.
   */
  lemma {:induction false} EntriesFlat(view: Value -> EntryView, step: OptionStep, entries: seq<Value>)
    requires WellFormed(view, entries) && NormaliseEntries(view, step, entries).Ok?
    ensures AllMatch(step, InnerOptions(view, entries), 0, NormaliseEntries(view, step, entries).value.flat)
  {
    if entries != [] {
      var n := |entries| - 1;
      var prefix := entries[..n];
      WellFormedPrefix(view, entries, n);
      EntriesFlat(view, step, prefix);
      var accP := NormaliseEntries(view, step, prefix).value;
      var opts := view(entries[n]).opts;
      NormaliseListAt(step, opts, |accP.flat|);
      var xxx := NormaliseList(step, opts, |accP.flat|).value;
      assert NormaliseEntries(view, step, entries).value.flat == accP.flat + xxx;
      AllMatchConcat(step, InnerOptions(view, prefix), opts, 0, accP.flat, xxx);
    }
  }

  /** A group of the prefix `entries[..n]` is still a group of `entries` once the flat list only grows. */
  lemma GroupAtExtend(view: Value -> EntryView, entries: seq<Value>, n: nat,
                      flatP: seq<NormalisedOption>, flat: seq<NormalisedOption>, i: nat, grp: OptionGroup)
    requires n <= |entries| && GroupAt(view, entries[..n], flatP, i, grp)
    requires flatP <= flat
    ensures GroupAt(view, entries, flat, i, grp)
  {
    var prefix := entries[..n];
    StartOfPrefix(view, entries, n, i);
    StartOfPrefix(view, entries, n, i + 1);
    assert entries[i] == prefix[i];
    assert flat[Start(view, entries, i)..Start(view, entries, i + 1)]
        == flatP[Start(view, prefix, i)..Start(view, prefix, i + 1)];
  }

  /** What the last iteration of the entry loop did, when the loop succeeds. */
  lemma EntriesLast(view: Value -> EntryView, step: OptionStep, entries: seq<Value>)
    requires WellFormed(view, entries) && entries != [] && NormaliseEntries(view, step, entries).Ok?
    ensures
      var n := |entries| - 1;
      var e := view(entries[n]);
      && WellFormed(view, entries[..n])
      && NormaliseEntries(view, step, entries[..n]).Ok?
      && e.Indexed?
      && var accP := NormaliseEntries(view, step, entries[..n]).value;
         && NormaliseList(step, e.opts, |accP.flat|).Ok?
         && var xxx := NormaliseList(step, e.opts, |accP.flat|).value;
            var acc := NormaliseEntries(view, step, entries).value;
            && acc.flat == accP.flat + xxx
            && acc.groups == if e.isGroup then accP.groups + [OptionGroup(e.caption, xxx)] else accP.groups
  {
    WellFormedPrefix(view, entries, |entries| - 1);
  }

  /** Adding the last entry's options and, for a group entry, its group keeps the groups matching the group entries. */
  lemma GroupsStep(view: Value -> EntryView, entries: seq<Value>,
                   flatP: seq<NormalisedOption>, groupsP: seq<OptionGroup>, xxx: seq<NormalisedOption>,
                   flat: seq<NormalisedOption>, groups: seq<OptionGroup>)
    requires entries != [] && view(entries[|entries| - 1]).Indexed?
    requires
      var n := |entries| - 1;
      var giP := GroupIndices(view, entries[..n]);
      && |groupsP| == |giP|
      && (forall g :: 0 <= g < |giP| ==> GroupAt(view, entries[..n], flatP, giP[g], groupsP[g]))
      && |flatP| == |InnerOptions(view, entries[..n])|
    requires
      var e := view(entries[|entries| - 1]);
      && |xxx| == |e.opts|
      && flat == flatP + xxx
      && groups == if e.isGroup then groupsP + [OptionGroup(e.caption, xxx)] else groupsP
    ensures
      var gi := GroupIndices(view, entries);
      && |groups| == |gi|
      && forall g :: 0 <= g < |gi| ==> GroupAt(view, entries, flat, gi[g], groups[g])
  {
    var n := |entries| - 1;
    var e := view(entries[n]);
    var giP := GroupIndices(view, entries[..n]);
    var gi := GroupIndices(view, entries);
    assert gi == giP + if IsGroupEntry(view, entries, n) then [n] else [];
    InnerOptionsLast(view, entries);
    if e.isGroup {
      assert flat[Start(view, entries, n)..Start(view, entries, n + 1)] == xxx;
      assert GroupAt(view, entries, flat, n, OptionGroup(e.caption, xxx));
    }
    forall g | 0 <= g < |gi|
      ensures GroupAt(view, entries, flat, gi[g], groups[g])
    {
      if g < |giP| {
        assert gi[g] == giP[g] && groups[g] == groupsP[g];
        GroupAtExtend(view, entries, n, flatP, flat, giP[g], groupsP[g]);
      }
    }
  }

  /**
   * The accumulated groups after all entries are exactly the group entries,
   * in order, each with its slice of the flat list.
   */
  lemma {:induction false} EntriesGroups(view: Value -> EntryView, step: OptionStep, entries: seq<Value>)
    requires WellFormed(view, entries) && NormaliseEntries(view, step, entries).Ok?
    ensures
      var acc := NormaliseEntries(view, step, entries).value;
      var gi := GroupIndices(view, entries);
      && |acc.groups| == |gi|
      && forall g :: 0 <= g < |gi| ==> GroupAt(view, entries, acc.flat, gi[g], acc.groups[g])
  {
    if entries != [] {
      var n := |entries| - 1;
      var prefix := entries[..n];
      EntriesLast(view, step, entries);
      EntriesGroups(view, step, prefix);
      EntriesLength(view, step, prefix);
      var accP := NormaliseEntries(view, step, prefix).value;
      var acc := NormaliseEntries(view, step, entries).value;
      var e := view(entries[n]);
      NormaliseListLength(step, e.opts, |accP.flat|);
      var xxx := NormaliseList(step, e.opts, |accP.flat|).value;
      GroupsStep(view, entries, accP.flat, accP.groups, xxx, acc.flat, acc.groups);
    }
  }

  /** Every group entry has its group among the accumulated groups. */
  lemma EntryGroup(view: Value -> EntryView, step: OptionStep, entries: seq<Value>, i: nat)
    requires WellFormed(view, entries) && NormaliseEntries(view, step, entries).Ok?
    requires i < |entries| && IsGroupEntry(view, entries, i)
    ensures
      var acc := NormaliseEntries(view, step, entries).value;
      exists g :: 0 <= g < |acc.groups| && GroupAt(view, entries, acc.flat, i, acc.groups[g])
  {
    EntriesGroups(view, step, entries);
    GroupIndicesSound(view, entries);
    var gi := GroupIndices(view, entries);
    var g :| 0 <= g < |gi| && gi[g] == i;
  }

  /** When the entry loop succeeds, every entry is indexable. */
  lemma {:induction false} EntriesOkIndexable(view: Value -> EntryView, step: OptionStep, entries: seq<Value>)
    requires WellFormed(view, entries) && NormaliseEntries(view, step, entries).Ok?
    ensures Indexable(view, entries)
  {
    if entries != [] {
      var n := |entries| - 1;
      var prefix := entries[..n];
      WellFormedPrefix(view, entries, n);
      EntriesOkIndexable(view, step, prefix);
      forall i | 0 <= i < |entries| ensures !view(entries[i]).Unindexable? {
        if i < n {
          assert prefix[i] == entries[i];
        }
      }
    }
  }

  /** When the entry loop succeeds, the step succeeded on every inner option. */
  lemma {:induction false} EntriesOkSteps(view: Value -> EntryView, step: OptionStep, entries: seq<Value>)
    requires WellFormed(view, entries) && NormaliseEntries(view, step, entries).Ok?
    ensures StepsSucceed(view, step, entries)
  {
    if entries != [] {
      var n := |entries| - 1;
      var prefix := entries[..n];
      WellFormedPrefix(view, entries, n);
      EntriesOkSteps(view, step, prefix);
      EntriesLength(view, step, prefix);
      var opts := view(entries[n]).opts;
      var start := |InnerOptions(view, prefix)|;
      assert NormaliseList(step, opts, start).Ok?;
      NormaliseListSucceeds(step, opts, start);
      AllSucceedConcat(step, InnerOptions(view, prefix), opts, 0);
    }
  }

  /** When every entry is indexable and the step succeeds on every inner option, the entry loop succeeds. */
  lemma {:induction false} EntriesSucceedIf(view: Value -> EntryView, step: OptionStep, entries: seq<Value>)
    requires WellFormed(view, entries) && Indexable(view, entries) && StepsSucceed(view, step, entries)
    ensures NormaliseEntries(view, step, entries).Ok?
  {
    if entries != [] {
      var n := |entries| - 1;
      var prefix := entries[..n];
      WellFormedPrefix(view, entries, n);
      var opts := view(entries[n]).opts;
      AllSucceedConcat(step, InnerOptions(view, prefix), opts, 0);
      assert Indexable(view, prefix) by {
        assert forall i :: 0 <= i < n ==> prefix[i] == entries[i];
      }
      EntriesSucceedIf(view, step, prefix);
      EntriesLength(view, step, prefix);
      var accP := NormaliseEntries(view, step, prefix).value;
      NormaliseListSucceeds(step, opts, |accP.flat|);
      assert NormaliseList(step, opts, |accP.flat|).Ok?;
    }
  }

  /** Once a prefix of an option list fails, the whole list fails with the same exception. */
  lemma {:induction false} ListErrExtends(step: OptionStep, opts: seq<ModelOption>, start: nat, n: nat)
    requires n <= |opts| && NormaliseList(step, opts[..n], start).Err?
    ensures NormaliseList(step, opts, start) == NormaliseList(step, opts[..n], start)
    decreases |opts|
  {
    if n < |opts| {
      var m := |opts| - 1;
      assert opts[..m][..n] == opts[..n];
      ListErrExtends(step, opts[..m], start, n);
    } else {
      assert opts[..n] == opts;
    }
  }

  /** Once a prefix of the entries fails, the whole entry loop fails with the same exception. */
  lemma {:induction false} EntriesErrExtends(view: Value -> EntryView, step: OptionStep, entries: seq<Value>, n: nat)
    requires WellFormed(view, entries) && n <= |entries|
    requires WellFormed(view, entries[..n]) && NormaliseEntries(view, step, entries[..n]).Err?
    ensures NormaliseEntries(view, step, entries) == NormaliseEntries(view, step, entries[..n])
    decreases |entries|
  {
    if n < |entries| {
      var m := |entries| - 1;
      WellFormedPrefix(view, entries, m);
      assert entries[..m][..n] == entries[..n];
      EntriesErrExtends(view, step, entries[..m], n);
    } else {
      assert entries[..n] == entries;
    }
  }

  /** Applying the step `prepare` uses is normalising the option. */
  lemma StepOfApply(st: Settings, opt: ModelOption, k: nat)
    ensures StepOf(st)(opt, k) == NormaliseOption(opt, k, st)
  {
  }

  /** One more successful option extends a successfully normalised prefix by its result. */
  lemma ListAppendOk(step: OptionStep, opts: seq<ModelOption>, start: nat, j: nat,
                     prior: seq<NormalisedOption>, o: NormalisedOption)
    requires j < |opts| && NormaliseList(step, opts[..j], start) == Ok(prior)
    requires step(opts[j], start + j) == Ok(o)
    ensures NormaliseList(step, opts[..j + 1], start) == Ok(prior + [o])
  {
    assert opts[..j + 1][..j] == opts[..j];
  }

  /** An option that fails after a successful prefix makes the whole list fail with its exception. */
  lemma ListAppendErr(step: OptionStep, opts: seq<ModelOption>, start: nat, j: nat)
    requires j < |opts| && NormaliseList(step, opts[..j], start).Ok?
    requires step(opts[j], start + j).Err?
    ensures NormaliseList(step, opts, start) == Err(step(opts[j], start + j).error)
  {
    assert opts[..j + 1][..j] == opts[..j];
    ListErrExtends(step, opts, start, j + 1);
  }

  /** One more indexable entry whose options normalise extends the accumulated lists. */
  lemma EntriesAppendOk(view: Value -> EntryView, step: OptionStep, entries: seq<Value>, i: nat,
                        acc: Accumulated, xxx: seq<NormalisedOption>)
    requires WellFormed(view, entries) && i < |entries| && view(entries[i]).Indexed?
    requires WellFormed(view, entries[..i]) && NormaliseEntries(view, step, entries[..i]) == Ok(acc)
    requires NormaliseList(step, view(entries[i]).opts, |acc.flat|) == Ok(xxx)
    ensures WellFormed(view, entries[..i + 1])
    ensures
      var e := view(entries[i]);
      NormaliseEntries(view, step, entries[..i + 1])
        == Ok(Accumulated(acc.flat + xxx, if e.isGroup then acc.groups + [OptionGroup(e.caption, xxx)] else acc.groups))
  {
    WellFormedPrefix(view, entries, i + 1);
    assert entries[..i + 1][..i] == entries[..i];
  }

  /**
   * An entry that cannot be indexed, or whose options fail, after a successful
   * prefix makes the whole entry loop fail with that exception.
   */
  lemma EntriesAppendErr(view: Value -> EntryView, step: OptionStep, entries: seq<Value>, i: nat,
                         acc: Accumulated, error: PyError)
    requires WellFormed(view, entries) && i < |entries|
    requires WellFormed(view, entries[..i]) && NormaliseEntries(view, step, entries[..i]) == Ok(acc)
    requires
      var e := view(entries[i]);
      || (e.Unindexable? && error == IndexError)
      || (e.Indexed? && NormaliseList(step, e.opts, |acc.flat|) == Err(error))
    ensures NormaliseEntries(view, step, entries) == Err(error)
  {
    WellFormedPrefix(view, entries, i + 1);
    assert entries[..i + 1][..i] == entries[..i];
    EntriesErrExtends(view, step, entries, i + 1);
  }

  // ---------------------------------------------------------------------------
  // What `prepare` builds

  /** The flat `options` list is as long as the total number of inner options. */
  lemma FlatOptionsLength(entries: seq<Value>, st: Settings)
    requires InModel(entries) && Normalise(entries, st).Ok?
    ensures |Normalise(entries, st).value.options| == |InnerOptions(ViewEntry, entries)|
  {
    EntriesLength(ViewEntry, StepOf(st), entries);
  }

  /**
   * The `j`-th element of the flat `options` list is the `j`-th inner option
   * normalised as the `j`-th option of the list (so the flat list concatenates
   * every entry's options in order).
   */
  lemma FlatOptionAt(entries: seq<Value>, st: Settings, j: nat)
    requires InModel(entries) && Normalise(entries, st).Ok?
    requires j < |InnerOptions(ViewEntry, entries)|
    ensures
      var p := Normalise(entries, st).value;
      && |p.options| == |InnerOptions(ViewEntry, entries)|
      && NormaliseOption(InnerOptions(ViewEntry, entries)[j], j, st) == Ok(p.options[j])
  {
    EntriesFlat(ViewEntry, StepOf(st), entries);
    assert StepOf(st)(InnerOptions(ViewEntry, entries)[j], 0 + j) == Ok(Normalise(entries, st).value.options[j]);
  }

  /**
   * `grouped_options` is `[(None, options)]` when no entry is a group, and
   * otherwise exactly the group entries in input order, each with its own
   * normalised options; entries that are not groups appear only in the flat list.
   */
  lemma GroupedOptionsShape(entries: seq<Value>, st: Settings)
    requires InModel(entries) && Normalise(entries, st).Ok?
    ensures
      var p := Normalise(entries, st).value;
      var gi := GroupIndices(ViewEntry, entries);
      && (gi == [] ==> p.groupedOptions == [OptionGroup(NoneV, p.options)])
      && (gi != [] ==>
            && |p.groupedOptions| == |gi|
            && forall g :: 0 <= g < |gi| ==> GroupAt(ViewEntry, entries, p.options, gi[g], p.groupedOptions[g]))
  {
    EntriesGroups(ViewEntry, StepOf(st), entries);
  }

  /** An indexed entry's option specs are the slice of the inner options from its start to the next entry's. */
  lemma EntrySlice(view: Value -> EntryView, entries: seq<Value>, i: nat)
    requires i < |entries| && view(entries[i]).Indexed?
    ensures
      var k := Start(view, entries, i);
      var opts := view(entries[i]).opts;
      && k + |opts| == Start(view, entries, i + 1) <= |InnerOptions(view, entries)|
      && InnerOptions(view, entries)[k..k + |opts|] == opts
  {
    InnerOptionsLast(view, entries[..i + 1]);
    assert entries[..i + 1][..i] == entries[..i];
    InnerOptionsPrefix(view, entries, i + 1);
  }

  /** An entry can be indexed exactly when `_iterate_options` gives it at least two items. */
  lemma IndexableIff(entries: seq<Value>)
    ensures Indexable(ViewEntry, entries) <==> forall i :: 0 <= i < |entries| ==> |IterateOption(entries[i]).items| >= 2
  {
    assert forall i :: 0 <= i < |entries| ==>
      (ViewEntry(entries[i]).Unindexable? <==> |IterateOption(entries[i]).items| < 2);
  }

  /** The step `prepare` uses succeeds on every inner option exactly when NormaliseOption does. */
  lemma {:induction false} StepsSucceedIff(entries: seq<Value>, st: Settings)
    ensures StepsSucceed(ViewEntry, StepOf(st), entries) ==>
      forall j :: 0 <= j < |InnerOptions(ViewEntry, entries)| ==>
        NormaliseOption(InnerOptions(ViewEntry, entries)[j], j, st).Ok?
    ensures !StepsSucceed(ViewEntry, StepOf(st), entries) ==>
      !forall j :: 0 <= j < |InnerOptions(ViewEntry, entries)| ==>
        NormaliseOption(InnerOptions(ViewEntry, entries)[j], j, st).Ok?
  {
    var inner := InnerOptions(ViewEntry, entries);
    if StepsSucceed(ViewEntry, StepOf(st), entries) {
      forall j | 0 <= j < |inner| ensures NormaliseOption(inner[j], j, st).Ok? {
        assert StepOf(st)(inner[j], 0 + j).Ok?;
      }
      assert forall j :: 0 <= j < |InnerOptions(ViewEntry, entries)| ==>
        NormaliseOption(InnerOptions(ViewEntry, entries)[j], j, st).Ok?;
    } else {
      var t :| 0 <= t < |inner| && !StepOf(st)(inner[t], 0 + t).Ok?;
      assert !NormaliseOption(inner[t], t, st).Ok?;
      assert !forall j :: 0 <= j < |InnerOptions(ViewEntry, entries)| ==>
        NormaliseOption(InnerOptions(ViewEntry, entries)[j], j, st).Ok?;
      assert !StepsSucceed(ViewEntry, StepOf(st), entries);
    }
  }

  /**
   * Normalisation raises exactly when some top-level entry has fewer than two
   * items, or converting the extras or testing the selection of some option raises.
   */
  lemma NormaliseSucceedsIff(entries: seq<Value>, st: Settings)
    requires InModel(entries)
    ensures Normalise(entries, st).Ok? <==>
      && (forall i :: 0 <= i < |entries| ==> |IterateOption(entries[i]).items| >= 2)
      && forall j :: 0 <= j < |InnerOptions(ViewEntry, entries)| ==>
           NormaliseOption(InnerOptions(ViewEntry, entries)[j], j, st).Ok?
  {
    IndexableIff(entries);
    StepsSucceedIff(entries, st);
    if Normalise(entries, st).Ok? {
      EntriesOkIndexable(ViewEntry, StepOf(st), entries);
      EntriesOkSteps(ViewEntry, StepOf(st), entries);
    } else if Indexable(ViewEntry, entries) && StepsSucceed(ViewEntry, StepOf(st), entries) {
      EntriesSucceedIf(ViewEntry, StepOf(st), entries);
    }
  }

  /** A bare (non-tuple, non-list) entry `x` contributes the single flat option `(x, x)`. */
  lemma BareEntryOption(entries: seq<Value>, st: Settings, i: nat)
    requires InModel(entries) && Normalise(entries, st).Ok?
    requires i < |entries| && !entries[i].IsSeq()
    ensures
      var p := Normalise(entries, st).value;
      var k := Start(ViewEntry, entries, i);
      && Start(ViewEntry, entries, i + 1) == k + 1
      && k < |InnerOptions(ViewEntry, entries)| == |p.options|
      && InnerOptions(ViewEntry, entries)[k] == TupleV([entries[i], entries[i]])
      && p.options[k].caption == entries[i]
      && "value" in p.options[k].attrs
      && (st.selectedVerb != "value" ==> p.options[k].attrs["value"] == entries[i])
  {
    var x := entries[i];
    var k := Start(ViewEntry, entries, i);
    assert ViewEntry(x) == Indexed(x, false, [TupleV([x, x])]);
    EntrySlice(ViewEntry, entries, i);
    var inner := InnerOptions(ViewEntry, entries);
    assert inner[k] == inner[k..k + 1][0];
    FlatOptionsLength(entries, st);
    FlatOptionAt(entries, st, k);
    NormaliseOptionAttributes(TupleV([x, x]), k, st);
  }

  /** How an in-model group entry `(label, items)` is read. */
  lemma GroupEntryView(e: Value)
    requires e.IsSeq() && |e.items| >= 2 && e.items[1].IsSeq() && !ViewEntry(e).OutOfModel?
    ensures ViewEntry(e) == Indexed(e.items[0], true, IterateOptions(e.items[1].items))
  {
  }

  /**
   * A group entry `(label, items)` contributes its items, each through
   * `_iterate_options`, as consecutive flat options, and its group holds
   * exactly those normalised options under `label`.
   */
  lemma GroupEntryOptions(entries: seq<Value>, st: Settings, i: nat)
    requires InModel(entries) && Normalise(entries, st).Ok?
    requires i < |entries| && entries[i].IsSeq() && |entries[i].items| >= 2 && entries[i].items[1].IsSeq()
    ensures
      var p := Normalise(entries, st).value;
      var k := Start(ViewEntry, entries, i);
      var items := IterateOptions(entries[i].items[1].items);
      && k + |items| == Start(ViewEntry, entries, i + 1) <= |InnerOptions(ViewEntry, entries)| == |p.options|
      && InnerOptions(ViewEntry, entries)[k..k + |items|] == items
      && exists g :: 0 <= g < |p.groupedOptions| &&
           p.groupedOptions[g] == OptionGroup(entries[i].items[0], p.options[k..k + |items|])
  {
    GroupEntryView(entries[i]);
    EntrySlice(ViewEntry, entries, i);
    FlatOptionsLength(entries, st);
    EntryGroup(ViewEntry, StepOf(st), entries, i);
  }

  /**
   * With a verb that is not one of the generated keys and not among the
   * extras, an option carries the selected marker exactly when it is selected:
   * code equal to the value, or contained in it for multi-select.
   */
  lemma SelectedMarkerExact(opt: Value, k: nat, st: Settings)
    requires OptionInModel(opt) && NormaliseOption(opt, k, st).Ok?
    requires st.selectedVerb !in {"value", "type", "name", "id"}
    requires st.selectedVerb !in Extras(opt).value
    ensures Marked(NormaliseOption(opt, k, st).value, st.selectedVerb) <==> IsSelected(opt.items[0], st).value
  {
    NormaliseOptionAttributes(opt, k, st);
  }

  /** Without a field type no id is generated, so an option's position does not matter. */
  lemma NormaliseOptionPositionFree(opt: Value, k1: nat, k2: nat, st: Settings)
    requires OptionInModel(opt) && !Truthy(st.fieldType)
    ensures NormaliseOption(opt, k1, st) == NormaliseOption(opt, k2, st)
  {
  }

  lemma OptionIdInjective(cid: string, a: nat, b: nat)
    ensures OptionId(cid, a) == OptionId(cid, b) ==> a == b
  {
    if OptionId(cid, a) == OptionId(cid, b) {
      assert OptionId(cid, a)[|cid| + 1..] == NatToString(a);
      assert OptionId(cid, b)[|cid| + 1..] == NatToString(b);
      NatToStringInjective(a, b);
    }
  }

  /** With a field type, option ids are pairwise distinct across all groups. */
  lemma OptionIdsDistinct(entries: seq<Value>, st: Settings, j1: nat, j2: nat)
    requires InModel(entries) && Normalise(entries, st).Ok?
    requires Truthy(st.fieldType) && st.selectedVerb != "id"
    requires j1 < j2 < |Normalise(entries, st).value.options|
    ensures
      var opts := Normalise(entries, st).value.options;
      "id" in opts[j1].attrs && "id" in opts[j2].attrs && opts[j1].attrs["id"] != opts[j2].attrs["id"]
  {
    FlatOptionsLength(entries, st);
    var inner := InnerOptions(ViewEntry, entries);
    FlatOptionAt(entries, st, j1);
    FlatOptionAt(entries, st, j2);
    NormaliseOptionAttributes(inner[j1], j1, st);
    NormaliseOptionAttributes(inner[j2], j2, st);
    OptionIdInjective(st.compoundId, j1, j2);
  }

  /**
   * With the selected verb `id`, the marker overwrites the generated `id` of
   * every selected option, so two selected options share the id `'id'`.
   */
  lemma IdVerbClashes(entries: seq<Value>, st: Settings, j1: nat, j2: nat)
    requires InModel(entries) && Normalise(entries, st).Ok? && st.selectedVerb == "id"
    requires j1 < j2 < |InnerOptions(ViewEntry, entries)|
    requires IsSelected(InnerOptions(ViewEntry, entries)[j1].items[0], st) == Ok(true)
    requires IsSelected(InnerOptions(ViewEntry, entries)[j2].items[0], st) == Ok(true)
    ensures
      var opts := Normalise(entries, st).value.options;
      && j2 < |opts| && "id" in opts[j1].attrs && "id" in opts[j2].attrs
      && opts[j1].attrs["id"] == opts[j2].attrs["id"] == StrV("id")
  {
    var inner := InnerOptions(ViewEntry, entries);
    FlatOptionAt(entries, st, j1);
    FlatOptionAt(entries, st, j2);
    NormaliseOptionAttributes(inner[j1], j1, st);
    NormaliseOptionAttributes(inner[j2], j2, st);
  }
}
