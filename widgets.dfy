/**
 * The small attribute rules of tw2/forms/widgets.py: `CheckBox.prepare`,
 * `SubmitButton.post_define` and the automatic labels of `BaseLayout.prepare`.
 */
module Widgets {
  import opened PyValues

  // ---------------------------------------------------------------------------
  // CheckBox

  /** The attributes after `prepare`: `checked` is `'true'` for a truthy value and `None` otherwise. */
  function CheckedAttrs(attrs: map<string, Value>, value: Value): (r: map<string, Value>)
    ensures r.Keys == attrs.Keys + {"checked"}
    ensures r["checked"] == StrV("true") <==> Truthy(value)
    ensures !Truthy(value) <==> r["checked"] == NoneV
    ensures forall key :: key in attrs && key != "checked" ==> r[key] == attrs[key]
  {
    attrs["checked" := if Truthy(value) then StrV("true") else NoneV]
  }

  class CheckBox {
    var value: Value
    /** The widget's own copy of its HTML attributes. */
    var attrs: map<string, Value>

    constructor(value: Value, attrs: map<string, Value>)
      ensures this.value == value && this.attrs == attrs
    {
      this.value := value;
      this.attrs := attrs;
    }

    /** `prepare`: record whether the box is checked in the attributes, then clear the value. */
    method Prepare()
      modifies this
      ensures attrs == CheckedAttrs(old(attrs), old(value))
      ensures value == NoneV
    {
      attrs := attrs["checked" := if Truthy(value) then StrV("true") else NoneV];
      value := NoneV;
    }
  }

  // ---------------------------------------------------------------------------
  // SubmitButton

  /** The id a submit button may not have. */
  const ReservedSubmitId := "submit"

  /** `SubmitButton.post_define`: a ParameterError exactly when the button's id is `'submit'`. */
  function SubmitPostDefine(idElem: Option<string>): (r: Result<()>)
    ensures r.Err? <==> idElem == Some(ReservedSubmitId)
    ensures r.Err? ==> r.error == ParameterError
  {
    if idElem == Some(ReservedSubmitId) then Err(ParameterError) else Ok(())
  }

  // ---------------------------------------------------------------------------
  // BaseLayout

  /** A child's `label` parameter: the `Auto` sentinel, `None` (no label), or a text. */
  datatype Label = Auto | NoLabel | Text(text: string)

  class LayoutChild {
    /** The child's `id_elem`, `None` when it has none. */
    var idElem: Option<string>
    var fieldLabel: Label  // `label` is a Dafny keyword

    constructor(idElem: Option<string>, fieldLabel: Label)
      ensures this.idElem == idElem && this.fieldLabel == fieldLabel
    {
      this.idElem := idElem;
      this.fieldLabel := fieldLabel;
    }
  }

  /** Whether a Python `id_elem` value is truthy: present and not the empty string. */
  predicate HasId(idElem: Option<string>) {
    idElem.Some? && idElem.value != ""
  }

  /**
   * The label a child ends up with: an `Auto` label becomes `name2label(id_elem)`,
   * or `''` without an id; every other label, `None` included, stays.
   */
  function AutoLabel(current: Label, idElem: Option<string>, name2label: string -> string): (r: Label)
    ensures r != Auto
    ensures current != Auto ==> r == current
    ensures current == Auto && HasId(idElem) ==> r == Text(name2label(idElem.value))
    ensures current == Auto && !HasId(idElem) ==> r == Text("")
  {
    if current != Auto then current
    else if HasId(idElem) then Text(name2label(idElem.value))
    else Text("")
  }

  /** Deriving the label again changes nothing. */
  lemma AutoLabelIdempotent(current: Label, idElem: Option<string>, name2label: string -> string)
    ensures AutoLabel(AutoLabel(current, idElem, name2label), idElem, name2label) == AutoLabel(current, idElem, name2label)
  {
  }

  class BaseLayout {
    const children: seq<LayoutChild>

    constructor(children: seq<LayoutChild>)
      ensures this.children == children
    {
      this.children := children;
    }

    /**
     * `prepare`: give every child with an `Auto` label its derived label.
     * `name2label` is the framework's id-to-label function.
     */
    method Prepare(name2label: string -> string)
      modifies children`fieldLabel
      ensures forall i :: 0 <= i < |children| ==>
        children[i].fieldLabel == AutoLabel(old(children[i].fieldLabel), children[i].idElem, name2label)
    {
      var i := 0;
      while i < |children|
        invariant i <= |children|
        invariant forall k :: 0 <= k < i ==>
          children[k].fieldLabel == AutoLabel(old(children[k].fieldLabel), children[k].idElem, name2label)
        invariant forall k :: 0 <= k < |children| ==>
          || children[k].fieldLabel == old(children[k].fieldLabel)
          || children[k].fieldLabel == AutoLabel(old(children[k].fieldLabel), children[k].idElem, name2label)
      {
        var c := children[i];
        if c.fieldLabel == Auto {
          c.fieldLabel := if HasId(c.idElem) then Text(name2label(c.idElem.value)) else Text("");
        }
        forall k | 0 <= k < |children|
          ensures AutoLabel(AutoLabel(old(children[k].fieldLabel), children[k].idElem, name2label), children[k].idElem, name2label)
               == AutoLabel(old(children[k].fieldLabel), children[k].idElem, name2label)
        {
          AutoLabelIdempotent(old(children[k].fieldLabel), children[k].idElem, name2label);
        }
        i := i + 1;
      }
    }
  }
}
