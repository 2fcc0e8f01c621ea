/**
 * `SelectionField.prepare` (tw2/forms/widgets.py) as the object method it is:
 * nested loops that accumulate the flat and grouped option lists, a shared id
 * counter, and the final assignment of the two output fields. The method is
 * proved to compute exactly `OptionNormaliser.Normalise` of the widget's
 * parameters, so every property proved in OptionProperties holds of its output.
 */
module Selection {
  import opened PyValues
  import opened OptionNormaliser
  import opened OptionProperties
  import opened RowChunker

  class SelectionField {
    /** The `options` parameter: the option specs as given. */
    var options: seq<Value>
    var value: Value
    var multiple: bool
    var fieldType: Value
    var selectedVerb: string
    /** What `_compound_id()` returns for this widget. */
    var compoundId: string
    /** The flat list `prepare` assigns back to `self.options`. */
    var flatOptions: seq<NormalisedOption>
    var groupedOptions: seq<OptionGroup>

    constructor(options: seq<Value>, value: Value, multiple: bool, fieldType: Value,
                selectedVerb: string, compoundId: string)
      ensures this.options == options && this.value == value && this.multiple == multiple
      ensures this.fieldType == fieldType && this.selectedVerb == selectedVerb
      ensures this.compoundId == compoundId
      ensures flatOptions == [] && groupedOptions == []
    {
      this.options := options;
      this.value := value;
      this.multiple := multiple;
      this.fieldType := fieldType;
      this.selectedVerb := selectedVerb;
      this.compoundId := compoundId;
      flatOptions := [];
      groupedOptions := [];
    }

    /** The parameters normalisation reads. */
    function Params(): Settings
      reads this
    {
      Settings(value, multiple, fieldType, selectedVerb, compoundId)
    }

    /**
     * The inner loop body for one option spec, numbered `counter`: copy the
     * extras, set `value`, with a field type set `type`, `name` and `id` and
     * advance the counter, then add the selected marker.
     */
    method NormaliseOne(option: ModelOption, selValue: Value, counter: nat) returns (r: Result<NormalisedOption>, next: nat)
      requires selValue == SelectionValue(Params())
      ensures r == NormaliseOption(option, counter, Params())
      ensures r.Ok? ==> next == if Truthy(fieldType) then counter + 1 else counter
    {
      next := counter;
      var attrs: map<string, Value>;
      if |option.items| == 2 {
        attrs := map[];
      } else {
        var extras := ToDict(option.items[2]);
        if extras.Err? {
          return Err(extras.error), next;
        }
        attrs := extras.value;
      }
      attrs := attrs["value" := option.items[0]];
      if Truthy(fieldType) {
        attrs := attrs["type" := fieldType];
        attrs := attrs["name" := StrV(compoundId)];
        attrs := attrs["id" := StrV(OptionId(compoundId, next))];
        next := next + 1;
      }
      var selected: Result<bool>;
      if multiple {
        selected := Contains(selValue, option.items[0]);
      } else {
        selected := Ok(PyEq(option.items[0], selValue));
      }
      if selected.Err? {
        return Err(selected.error), next;
      }
      if selected.value {
        attrs := attrs[selectedVerb := StrV(selectedVerb)];
      }
      r := Ok(NormalisedOption(attrs, option.items[1]));
    }

    /**
     * The inner loop of `prepare` over one entry's option list, whose first
     * option is option `start` of the flat list; `counter` is the id counter.
     */
    method NormaliseOptionList(optlist: seq<Value>, ghost opts: seq<ModelOption>, selValue: Value,
                               start: nat, counter: nat) returns (r: Result<seq<NormalisedOption>>, next: nat)
      requires opts == IterateOptions(optlist) && selValue == SelectionValue(Params())
      requires counter == if Truthy(fieldType) then start else 0
      ensures r == NormaliseList(StepOf(Params()), opts, start)
      ensures r.Ok? ==> next == if Truthy(fieldType) then start + |opts| else 0
    {
      ghost var st := Params();
      var xxx: seq<NormalisedOption> := [];
      next := counter;
      var j := 0;
      while j < |optlist|
        invariant j <= |optlist| == |opts|
        invariant NormaliseList(StepOf(st), opts[..j], start) == Ok(xxx)
        invariant next == if Truthy(fieldType) then start + j else 0
      {
        var option := IterateOption(optlist[j]);
        assert option == opts[j];
        var o;
        o, next := NormaliseOne(option, selValue, next);
        if !Truthy(fieldType) {
          NormaliseOptionPositionFree(option, 0, start + j, st);
        }
        StepOfApply(st, opts[j], start + j);
        if o.Err? {
          ListAppendErr(StepOf(st), opts, start, j);
          return Err(o.error), next;
        }
        ListAppendOk(StepOf(st), opts, start, j, xxx, o.value);
        xxx := xxx + [o.value];
        j := j + 1;
      }
      assert opts[..j] == opts;
      return Ok(xxx), next;
    }

    /**
     * `prepare`: on success the two output fields hold the normalised flat and
     * grouped lists; when an exception is raised it is returned and neither
     * output field is assigned.
     */
    method Prepare() returns (err: Option<PyError>)
      requires InModel(options)
      modifies this`flatOptions, this`groupedOptions
      ensures var res := Normalise(options, Params());
        && (err.None? <==> res.Ok?)
        && (res.Ok? ==> flatOptions == res.value.options && groupedOptions == res.value.groupedOptions)
        && (res.Err? ==> err == Some(res.error))
      ensures err.Some? ==> flatOptions == old(flatOptions) && groupedOptions == old(groupedOptions)
    {
      ghost var st := Params();
      ghost var step := StepOf(st);
      var grouped: seq<OptionGroup> := [];
      var flat: seq<NormalisedOption> := [];
      var counter: nat := 0;
      var selValue := value;
      if multiple && !Truthy(selValue) {
        selValue := ListV([]);
      }
      var i := 0;
      while i < |options|
        invariant i <= |options|
        invariant WellFormed(ViewEntry, options[..i])
        invariant NormaliseEntries(ViewEntry, step, options[..i]) == Ok(Accumulated(flat, grouped))
        invariant counter == if Truthy(fieldType) then |flat| else 0
        invariant flatOptions == old(flatOptions) && groupedOptions == old(groupedOptions)
      {
        ghost var acc := Accumulated(flat, grouped);
        var optgroup := IterateOption(options[i]);
        if |optgroup.items| < 2 {
          EntriesAppendErr(ViewEntry, step, options, i, acc, IndexError);
          return Some(IndexError);
        }
        var group := optgroup.items[1].IsSeq();
        var optlist := if group then optgroup.items[1].items else [optgroup];
        assert !ViewEntry(options[i]).OutOfModel?;
        ghost var opts := ViewEntry(options[i]).opts;
        assert opts == IterateOptions(optlist);
        var normalised;
        normalised, counter := NormaliseOptionList(optlist, opts, selValue, |flat|, counter);
        if normalised.Err? {
          EntriesAppendErr(ViewEntry, step, options, i, acc, normalised.error);
          return Some(normalised.error);
        }
        var xxx := normalised.value;
        NormaliseListLength(step, opts, |flat|);
        EntriesAppendOk(ViewEntry, step, options, i, acc, xxx);
        flat := flat + xxx;
        if group {
          grouped := grouped + [OptionGroup(optgroup.items[0], xxx)];
        }
        i := i + 1;
      }
      assert options[..i] == options;
      flatOptions := flat;
      groupedOptions := if grouped != [] then grouped else [OptionGroup(NoneV, flat)];
      return None;
    }
  }

  /** An entry of `grouped_options_rows`: a group label and that group's options in rows. */
  datatype RowGroup = RowGroup(caption: Value, rows: seq<seq<NormalisedOption>>)

  /**
   * `SelectionTable`: a selection field whose options are also laid out in
   * rows of `cols` cells. The selection field it extends is held as `field`.
   */
  class SelectionTable {
    const field: SelectionField
    var cols: nat
    var optionsRows: seq<seq<NormalisedOption>>
    var groupedOptionsRows: seq<RowGroup>

    constructor(field: SelectionField, cols: nat)
      ensures this.field == field && this.cols == cols
      ensures optionsRows == [] && groupedOptionsRows == []
    {
      this.field := field;
      this.cols := cols;
      optionsRows := [];
      groupedOptionsRows := [];
    }

    /**
     * `prepare`: the selection field's `prepare`, then the flat options in
     * rows and each group's options in rows under the unchanged group label.
     */
    method Prepare() returns (err: Option<PyError>)
      requires InModel(field.options) && cols > 0
      modifies this`optionsRows, this`groupedOptionsRows, field`flatOptions, field`groupedOptions
      ensures var res := Normalise(field.options, field.Params());
        && (err.None? <==> res.Ok?)
        && (res.Ok? ==> field.flatOptions == res.value.options && field.groupedOptions == res.value.groupedOptions)
        && (res.Err? ==> err == Some(res.error))
      ensures err.None? ==>
        && IsRowSplit(optionsRows, field.flatOptions, cols)
        && |groupedOptionsRows| == |field.groupedOptions|
        && forall g :: 0 <= g < |groupedOptionsRows| ==>
             && groupedOptionsRows[g].caption == field.groupedOptions[g].caption
             && IsRowSplit(groupedOptionsRows[g].rows, field.groupedOptions[g].options, cols)
      ensures err.Some? ==> optionsRows == old(optionsRows) && groupedOptionsRows == old(groupedOptionsRows)
      ensures err.Some? ==> field.flatOptions == old(field.flatOptions) && field.groupedOptions == old(field.groupedOptions)
    {
      err := field.Prepare();
      if err.Some? {
        return;
      }
      var flat := field.flatOptions;
      optionsRows := GroupRows(flat, cols);
      var groups := field.groupedOptions;
      var rows: seq<RowGroup> := [];
      var g := 0;
      while g < |groups|
        invariant field.flatOptions == flat && field.groupedOptions == groups
        invariant IsRowSplit(optionsRows, flat, cols)
        invariant g <= |groups| && |rows| == g
        invariant forall h :: 0 <= h < g ==>
          rows[h].caption == groups[h].caption && IsRowSplit(rows[h].rows, groups[h].options, cols)
      {
        var r := GroupRows(groups[g].options, cols);
        rows := rows + [RowGroup(groups[g].caption, r)];
        g := g + 1;
      }
      groupedOptionsRows := rows;
    }
  }
}
