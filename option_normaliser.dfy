/**
 * The option normalisation of `SelectionField.prepare` (tw2/forms/widgets.py),
 * stated as functions: the reference that the imperative `Selection.SelectionField.Prepare`
 * is proved against, and the lemmas that say what its results mean.
 *
 * A top-level option entry is a bare value, a `(code, label)` or
 * `(code, label, extra_attrs)` tuple or list, or a group `(group_label, [entries])`.
 * Normalisation yields the flat list of `(attrs, label)` pairs of all options
 * and the grouped list `(group_label, [(attrs, label)])`.
 *
 * The loop over the entries is defined for any way of reading an entry
 * (`view`) and of normalising one option (`step`); ViewEntry and StepOf are
 * the ones `prepare` uses. The structural lemmas are proved once for all of them.
 */
module OptionNormaliser {
  import opened PyValues
  import opened Decimal

  /** One normalised option: its HTML attributes and its display label. */
  datatype NormalisedOption = NormalisedOption(attrs: map<string, Value>, caption: Value)

  /** An entry of `grouped_options`; the label is `None` for the implicit single group. */
  datatype OptionGroup = OptionGroup(caption: Value, options: seq<NormalisedOption>)

  /** The widget parameters normalisation reads; `compoundId` is what `_compound_id()` returns. */
  datatype Settings = Settings(
    value: Value,
    multiple: bool,
    fieldType: Value,
    selectedVerb: string,
    compoundId: string)

  /** The two lists `prepare` assigns to `self.options` and `self.grouped_options`. */
  datatype Prepared = Prepared(options: seq<NormalisedOption>, groupedOptions: seq<OptionGroup>)

  /** The running `options` and `grouped_options` lists of the loop in `prepare`. */
  datatype Accumulated = Accumulated(flat: seq<NormalisedOption>, groups: seq<OptionGroup>)

  // ---------------------------------------------------------------------------
  // Option specs

  /** `_iterate_options` on one element: a bare value becomes `(value, value)`. */
  function IterateOption(v: Value): (r: Value)
    ensures r.IsSeq()
    ensures v.IsSeq() ==> r == v
    ensures !v.IsSeq() ==> |r.items| == 2 && r.items[0] == v && r.items[1] == v
  {
    if v.IsSeq() then v else TupleV([v, v])
  }

  /** `_iterate_options(optlist)`, the generator, as the list of what it yields. */
  function IterateOptions(optlist: seq<Value>): (r: seq<Value>)
  {
    seq(|optlist|, i requires 0 <= i < |optlist| => IterateOption(optlist[i]))
  }

  /** `_iterate_options` yields one tuple or list per element, in order, keeping tuples and lists as they are. */
  lemma IterateOptionsShape(optlist: seq<Value>)
    ensures |IterateOptions(optlist)| == |optlist|
    ensures forall i :: 0 <= i < |optlist| ==> IterateOptions(optlist)[i].IsSeq()
    ensures forall i :: 0 <= i < |optlist| && optlist[i].IsSeq() ==> IterateOptions(optlist)[i] == optlist[i]
  {
  }

  /**
   * An option spec, after `_iterate_options`, that the model covers: its length
   * is 2 or 3 (for other lengths the source leaves `option_attrs` unbound or stale)
   * and its extra attributes are representable.
   */
  predicate OptionInModel(opt: Value) {
    && opt.IsSeq()
    && (|opt.items| == 2 || |opt.items| == 3)
    && (|opt.items| == 3 ==> DictArgInModel(opt.items[2]))
  }

  predicate OptionsInModel(opts: seq<Value>) {
    forall t :: 0 <= t < |opts| ==> OptionInModel(opts[t])
  }

  /** An option spec the model covers, as a type. */
  type ModelOption = opt: Value | OptionInModel(opt) witness TupleV([NoneV, NoneV])

  /**
   * A top-level entry as the loop reads it: indexing its second item fails,
   * or it has a label, is a group or not, and a list of option specs, or one
   * of those option specs is outside the model.
   */
  datatype EntryView =
    | Unindexable
    | OutOfModel
    | Indexed(caption: Value, isGroup: bool, opts: seq<ModelOption>)

  /** The option specs of an indexable entry: a group's items, or the entry itself, each through `_iterate_options`. */
  function EntryOptions(og: Value): seq<Value>
    requires og.IsSeq() && |og.items| >= 2
  {
    IterateOptions(if og.items[1].IsSeq() then og.items[1].items else [og])
  }

  /** How `prepare` reads a top-level entry: `optgroup[1]` decides group or not, `optgroup[0]` is the group label. */
  function ViewEntry(e: Value): EntryView {
    var og := IterateOption(e);
    if |og.items| < 2 then Unindexable
    else if OptionsInModel(EntryOptions(og)) then Indexed(og.items[0], og.items[1].IsSeq(), EntryOptions(og))
    else OutOfModel
  }

  // ---------------------------------------------------------------------------
  // The entries, as a view reads them

  /** Every option spec of the entries, in input order, groups flattened: what the flat list is built from. */
  function InnerOptions(view: Value -> EntryView, entries: seq<Value>): seq<ModelOption> {
    if entries == [] then []
    else
      var e := view(entries[|entries| - 1]);
      InnerOptions(view, entries[..|entries| - 1]) + if e.Indexed? then e.opts else []
  }

  /** Every entry's option specs are in the model. */
  predicate WellFormed(view: Value -> EntryView, entries: seq<Value>) {
    forall i :: 0 <= i < |entries| ==> !view(entries[i]).OutOfModel?
  }

  lemma WellFormedPrefix(view: Value -> EntryView, entries: seq<Value>, n: nat)
    requires WellFormed(view, entries) && n <= |entries|
    ensures WellFormed(view, entries[..n])
  {
    assert forall i :: 0 <= i < n ==> entries[..n][i] == entries[i];
  }

  /** Where the options of entry `i` start in the flat list. */
  function Start(view: Value -> EntryView, entries: seq<Value>, i: nat): nat
    requires i <= |entries|
  {
    |InnerOptions(view, entries[..i])|
  }

  /** The inner options of a prefix of the entries are a prefix of the inner options. */
  lemma {:induction false} InnerOptionsPrefix(view: Value -> EntryView, entries: seq<Value>, n: nat)
    requires n <= |entries|
    ensures InnerOptions(view, entries[..n]) <= InnerOptions(view, entries)
    decreases |entries|
  {
    if n < |entries| {
      var m := |entries| - 1;
      assert entries[..m][..n] == entries[..n];
      InnerOptionsPrefix(view, entries[..m], n);
    } else {
      assert entries[..n] == entries;
    }
  }

  /** Entry `i` is a group. */
  predicate IsGroupEntry(view: Value -> EntryView, entries: seq<Value>, i: nat)
    requires i < |entries|
  {
    view(entries[i]).Indexed? && view(entries[i]).isGroup
  }

  /** The positions of the group entries. */
  function GroupIndices(view: Value -> EntryView, entries: seq<Value>): seq<nat> {
    if entries == [] then []
    else
      var n := |entries| - 1;
      GroupIndices(view, entries[..n]) + if IsGroupEntry(view, entries, n) then [n] else []
  }

  /** GroupIndices lists exactly the positions of the group entries, in increasing order. */
  lemma {:induction false} GroupIndicesSound(view: Value -> EntryView, entries: seq<Value>)
    ensures var r := GroupIndices(view, entries);
      && (forall g :: 0 <= g < |r| ==> r[g] < |entries| && IsGroupEntry(view, entries, r[g]))
      && (forall g, h :: 0 <= g < h < |r| ==> r[g] < r[h])
      && (forall i :: 0 <= i < |entries| && IsGroupEntry(view, entries, i) ==> i in r)
  {
    if entries != [] {
      var n := |entries| - 1;
      GroupIndicesSound(view, entries[..n]);
      assert forall i :: 0 <= i < n ==> entries[..n][i] == entries[i];
      assert forall i :: 0 <= i < n ==> IsGroupEntry(view, entries[..n], i) == IsGroupEntry(view, entries, i);
    }
  }

  // ---------------------------------------------------------------------------
  // Attributes of one option

  /** The value selection is tested against: a falsy value of a multi-select counts as `[]`. */
  function SelectionValue(st: Settings): Value {
    if st.multiple && !Truthy(st.value) then ListV([]) else st.value
  }

  /** Whether an option with this code is selected: membership for multi-select, equality otherwise. */
  function IsSelected(code: Value, st: Settings): (r: Result<bool>)
    ensures !st.multiple ==> r == Ok(PyEq(code, st.value))
    ensures st.multiple && Truthy(st.value) ==> r == Contains(st.value, code)
    ensures st.multiple && !Truthy(st.value) ==> r == Ok(false)
  {
    if st.multiple then Contains(SelectionValue(st), code) else Ok(PyEq(code, SelectionValue(st)))
  }

  /** The attributes a 3-tuple contributes (`dict(option[2])`), none for a pair. */
  function Extras(opt: Value): Result<map<string, Value>>
    requires OptionInModel(opt)
  {
    if |opt.items| == 3 then ToDict(opt.items[2]) else Ok(map[])
  }

  /** `compound_id + ':' + str(k)` */
  function OptionId(compoundId: string, k: nat): string {
    compoundId + ":" + NatToString(k)
  }

  /** The keys normalisation writes: `value`, `type`/`name`/`id` with a field type, and the selected verb. */
  function GeneratedKeys(st: Settings, selected: bool): set<string> {
    {"value"}
    + (if Truthy(st.fieldType) then {"type", "name", "id"} else {})
    + (if selected then {st.selectedVerb} else {})
  }

  /** The selected marker: `attrs[selected_verb] == selected_verb`. */
  predicate Marked(o: NormalisedOption, verb: string) {
    verb in o.attrs && o.attrs[verb] == StrV(verb)
  }

  /**
   * Normalise one option spec that is the `k`-th option of the flat list.
   * Its attributes are the extras overridden by `value`, then (with a field
   * type) `type`, `name` and `id`, then the selected marker; NormaliseOptionAttributes
   * states what they hold.
   */
  function NormaliseOption(opt: Value, k: nat, st: Settings): (r: Result<NormalisedOption>)
    requires OptionInModel(opt)
    ensures r.Ok? <==> Extras(opt).Ok? && IsSelected(opt.items[0], st).Ok?
    ensures r.Err? ==>
      r.error == if Extras(opt).Err? then Extras(opt).error else IsSelected(opt.items[0], st).error
    ensures r.Ok? ==> r.value.caption == opt.items[1]
  {
    var extras :- Extras(opt);
    var withValue := extras["value" := opt.items[0]];
    var withField :=
      if Truthy(st.fieldType) then
        withValue["type" := st.fieldType]["name" := StrV(st.compoundId)]["id" := StrV(OptionId(st.compoundId, k))]
      else withValue;
    var selected :- IsSelected(opt.items[0], st);
    var attrs := if selected then withField[st.selectedVerb := StrV(st.selectedVerb)] else withField;
    Ok(NormalisedOption(attrs, opt.items[1]))
  }

  /**
   * The attributes of a normalised option: exactly the extras' keys and the
   * generated ones; the selected marker wins over the generated keys and the
   * extras, and the generated keys (`value`, `type`, `name`, `id`) win over the extras.
   */
  lemma NormaliseOptionAttributes(opt: Value, k: nat, st: Settings)
    requires OptionInModel(opt) && NormaliseOption(opt, k, st).Ok?
    ensures
      var a := NormaliseOption(opt, k, st).value.attrs;
      var extras := Extras(opt).value;
      var sel := IsSelected(opt.items[0], st).value;
      var verb := st.selectedVerb;
      && a.Keys == extras.Keys + GeneratedKeys(st, sel)
      && (sel ==> a[verb] == StrV(verb))
      && (!sel || verb != "value" ==> a["value"] == opt.items[0])
      && (Truthy(st.fieldType) ==>
            && (!sel || verb != "type" ==> a["type"] == st.fieldType)
            && (!sel || verb != "name" ==> a["name"] == StrV(st.compoundId))
            && (!sel || verb != "id" ==> a["id"] == StrV(OptionId(st.compoundId, k))))
      && forall key :: key in extras && key !in GeneratedKeys(st, sel) ==> a[key] == extras[key]
  {
  }

  /**
   * What the inner loop body of `prepare` does to one option spec, given
   * its zero-based position in the flat list. The list- and entry-level
   * definitions below take it as a parameter; StepOf is the one `prepare` uses.
   */
  type OptionStep = (ModelOption, nat) -> Result<NormalisedOption>

  function StepOf(st: Settings): OptionStep {
    (opt: ModelOption, k: nat) => NormaliseOption(opt, k, st)
  }

  /** Normalise a list of option specs whose first one is the `start`-th option of the flat list. */
  function NormaliseList(step: OptionStep, opts: seq<ModelOption>, start: nat): Result<seq<NormalisedOption>> {
    if opts == [] then Ok([])
    else
      var n := |opts| - 1;
      var prior :- NormaliseList(step, opts[..n], start);
      var o :- step(opts[n], start + n);
      Ok(prior + [o])
  }

  /** A normalised list has one result per option spec. */
  lemma {:induction false} NormaliseListLength(step: OptionStep, opts: seq<ModelOption>, start: nat)
    requires NormaliseList(step, opts, start).Ok?
    ensures |NormaliseList(step, opts, start).value| == |opts|
  {
    if opts != [] {
      NormaliseListLength(step, opts[..|opts| - 1], start);
    }
  }

  /** The step succeeds on every option of `opts`, the first one taken as option `start` of the flat list. */
  predicate AllSucceed(step: OptionStep, opts: seq<ModelOption>, start: nat) {
    forall t :: 0 <= t < |opts| ==> step(opts[t], start + t).Ok?
  }

  /** Success on a concatenation is success on both halves, the second half offset by the first's length. */
  lemma AllSucceedConcat(step: OptionStep, a: seq<ModelOption>, b: seq<ModelOption>, start: nat)
    ensures AllSucceed(step, a + b, start) <==> AllSucceed(step, a, start) && AllSucceed(step, b, start + |a|)
  {
    if AllSucceed(step, a + b, start) {
      assert forall t :: 0 <= t < |a| ==> (a + b)[t] == a[t];
      forall t | 0 <= t < |b| ensures step(b[t], start + |a| + t).Ok? {
        assert (a + b)[|a| + t] == b[t];
      }
    }
    if AllSucceed(step, a, start) && AllSucceed(step, b, start + |a|) {
      forall t | 0 <= t < |a + b| ensures step((a + b)[t], start + t).Ok? {
        if t >= |a| {
          assert (a + b)[t] == b[t - |a|];
          assert step(b[t - |a|], start + |a| + (t - |a|)).Ok?;
        }
      }
    }
  }

  /** `results` is `opts` normalised one by one, the first option taken as option `start` of the flat list. */
  predicate AllMatch(step: OptionStep, opts: seq<ModelOption>, start: nat, results: seq<NormalisedOption>) {
    && |results| == |opts|
    && forall t :: 0 <= t < |opts| ==> step(opts[t], start + t) == Ok(results[t])
  }

  /** Matching extends over concatenation, the second half offset by the first's length. */
  lemma AllMatchConcat(step: OptionStep, a: seq<ModelOption>, b: seq<ModelOption>, start: nat,
                       ra: seq<NormalisedOption>, rb: seq<NormalisedOption>)
    requires AllMatch(step, a, start, ra) && AllMatch(step, b, start + |a|, rb)
    ensures AllMatch(step, a + b, start, ra + rb)
  {
    forall t | 0 <= t < |a + b| ensures step((a + b)[t], start + t) == Ok((ra + rb)[t]) {
      if t < |a| {
        assert (a + b)[t] == a[t] && (ra + rb)[t] == ra[t];
      } else {
        assert (a + b)[t] == b[t - |a|] && (ra + rb)[t] == rb[t - |a|];
        assert step(b[t - |a|], start + |a| + (t - |a|)) == Ok(rb[t - |a|]);
      }
    }
  }

  /** A list normalises exactly when each of its options does. */
  lemma {:induction false} NormaliseListSucceeds(step: OptionStep, opts: seq<ModelOption>, start: nat)
    ensures NormaliseList(step, opts, start).Ok? <==> AllSucceed(step, opts, start)
  {
    if opts != [] {
      var n := |opts| - 1;
      var prefix := opts[..n];
      NormaliseListSucceeds(step, prefix, start);
      assert NormaliseList(step, opts, start).Ok? <==>
        NormaliseList(step, prefix, start).Ok? && step(opts[n], start + n).Ok?;
      assert opts == prefix + [opts[n]];
      AllSucceedConcat(step, prefix, [opts[n]], start);
      assert AllSucceed(step, [opts[n]], start + n) <==> step(opts[n], start + n).Ok?;
    }
  }

  /** A normalised list's `t`-th result is its `t`-th option normalised as option `start + t`. */
  lemma {:induction false} NormaliseListAt(step: OptionStep, opts: seq<ModelOption>, start: nat)
    requires NormaliseList(step, opts, start).Ok?
    ensures AllMatch(step, opts, start, NormaliseList(step, opts, start).value)
  {
    if opts != [] {
      var n := |opts| - 1;
      var prefix := opts[..n];
      NormaliseListAt(step, prefix, start);
      var prior := NormaliseList(step, prefix, start).value;
      var o := step(opts[n], start + n).value;
      assert NormaliseList(step, opts, start).value == prior + [o];
      assert AllMatch(step, [opts[n]], start + n, [o]);
      assert opts == prefix + [opts[n]];
      AllMatchConcat(step, prefix, [opts[n]], start, prior, [o]);
    }
  }

  // ---------------------------------------------------------------------------
  // The whole option list

  /** The loop of `prepare` over the top-level entries; the first exception raised wins. */
  function NormaliseEntries(view: Value -> EntryView, step: OptionStep, entries: seq<Value>): Result<Accumulated>
    requires WellFormed(view, entries)
  {
    if entries == [] then Ok(Accumulated([], []))
    else
      var n := |entries| - 1;
      WellFormedPrefix(view, entries, n);
      var acc :- NormaliseEntries(view, step, entries[..n]);
      var e := view(entries[n]);
      if e.Unindexable? then Err(IndexError)
      else
        var xxx :- NormaliseList(step, e.opts, |acc.flat|);
        Ok(Accumulated(
          acc.flat + xxx,
          if e.isGroup then acc.groups + [OptionGroup(e.caption, xxx)] else acc.groups))
  }

  /** The option lists the model covers. */
  predicate InModel(entries: seq<Value>) {
    WellFormed(ViewEntry, entries)
  }

  /** `SelectionField.prepare`: the flat options, and the groups or a single unlabelled group of all options. */
  function Normalise(entries: seq<Value>, st: Settings): (r: Result<Prepared>)
    requires InModel(entries)
    ensures r.Ok? ==> r.value.groupedOptions != []
  {
    var acc :- NormaliseEntries(ViewEntry, StepOf(st), entries);
    Ok(Prepared(acc.flat, if acc.groups != [] then acc.groups else [OptionGroup(NoneV, acc.flat)]))
  }
}
