# tw2.forms widgets: option normalisation, row chunking and attribute rules

This project models the data-transforming core of `tw2/forms/widgets.py`,
the form widget library of ToscaWidgets 2, and proves what it computes.

- **Option normalisation** (`SelectionField.prepare` with `_iterate_options`).
  A selection widget accepts a mixed list of option specs: a bare value, a
  `(code, label)` pair, a `(code, label, extra_attrs)` triple, or a group
  `(group_label, [specs])`. `prepare` turns it into a flat list of
  `(attrs, label)` pairs and a grouped list `(group_label, [(attrs, label)])`.
  Each attribute map gets `value`, and with a field type also `type`, `name`
  and a numbered `id`. The selected options get the selected marker.
  - `Selection.SelectionField` is the widget as a class. Its `Prepare` is the
    nested loop of the source, with the shared id counter. It is proved to
    compute exactly the reference function `OptionNormaliser.Normalise`.
  - `OptionNormaliser` defines that reference. Its loop over the entries is
    written once for any way of reading an entry and any per-option step.
  - `OptionProperties` proves what the results mean: order and concatenation
    of the flat list, the group rule, the attribute keys and their
    precedence, selection exactness, distinct ids (unless the selected verb is itself `id`),
    and when an exception is raised.
- **Row chunking** (`SelectionTable._group_rows` and `SelectionTable.prepare`).
  `RowChunker.GroupRows` splits a sequence into rows of `size` items. The rows
  concatenate back to the input. Every row but the last is full, and the last
  is never empty. There are `ceil(n / size)` rows, and this split is the only
  one with these properties. `Selection.SelectionTable` applies it to the flat
  list and to each group.
- **Attribute rules** (`Widgets`): the checked flag of `CheckBox.prepare`, the
  reserved-id guard of `SubmitButton.post_define`, and the automatic child
  labels of `BaseLayout.prepare`.

Python values are modelled by `PyValues.Value`. It has None, bool, int, str,
tuple, list and dict with string keys. Python `==` is modelled by `PyEq`, where
`True == 1`, a tuple never equals a list, and containers compare element by
element. Python `in` is `Contains`, and `dict(x)` is `ToDict`. Each has the
`TypeError`/`ValueError` paths Python has. An exception the source raises is
an `Err` result, or an `Option<PyError>` returned by a method. Framework calls
are parameters:
- `_compound_id()` is the `compoundId` field;
- `twc.util.name2label` is the `name2label` argument of `BaseLayout.Prepare`;
- the `twc.Auto` sentinel is the `Auto` case of `Widgets.Label`.

For a falsy value, `CheckBox.prepare` sets `attrs['checked']` to `None`. It
does not remove the key, so the model keeps `checked`, mapped to `NoneV`,
rather than leaving the attribute out.

## Model

| member | source | states |
|---|---|---|
| OptionNormaliser.Normalise | tw2/forms/widgets.py:123-163 | the reference result of `prepare`: the entry loop's flat list as `options`, and its groups as `grouped_options`, or `[(None, options)]` when there are none; the loop's first exception is the result; `grouped_options` is never empty |
| OptionNormaliser.NormaliseEntries | tw2/forms/widgets.py:132-158 | the loop over the top-level entries: IndexError for an entry without `optgroup[1]`, otherwise the entry's options normalised from the current flat length, appended to the flat list and, for a group entry, added as a group under `optgroup[0]` |
| OptionNormaliser.NormaliseList | tw2/forms/widgets.py:140-155 | the inner loop over one entry's option specs: each normalised in order at its flat position, the first exception ending the loop |
| OptionNormaliser.ViewEntry | tw2/forms/widgets.py:132-139 | how the loop reads an entry after `_iterate_options`: unindexable with fewer than two items; otherwise its label `optgroup[0]`, whether `optgroup[1]` is a tuple or list (a group), and its option specs |
| OptionNormaliser.EntryOptions | tw2/forms/widgets.py:134-140 | an entry's option specs: a group's `optgroup[1]` items, or the entry itself alone, each through `_iterate_options` |
| OptionNormaliser.IterateOptions | tw2/forms/widgets.py:166-171 | `_iterate_options(optlist)` as the list it yields: `IterateOption` of each element, in order |
| OptionNormaliser.IterateOptionsShape | tw2/forms/widgets.py:166-171 | `_iterate_options` yields exactly one tuple or list per element, in order, tuples and lists unchanged |
| OptionNormaliser.SelectionValue | tw2/forms/widgets.py:129-131 | the value selection is tested against: `[]` for a multi-select whose value is falsy, the widget's value otherwise |
| OptionNormaliser.Extras | tw2/forms/widgets.py:141-144 | a pair contributes no attributes; a triple contributes `dict(option[2])`, with its TypeError or ValueError |
| OptionNormaliser.OptionId | tw2/forms/widgets.py:150 | an option's id: the compound id, `':'` and the decimal counter value |
| Decimal.NatToString | tw2/forms/widgets.py:150 | `str(n)` for a counter value: at least one character, all of them decimal digits |
| PyValues.Truthy | tw2/forms/widgets.py:146 | Python truthiness, used for `self.field_type` here, for the value at lines 47 and 130 and for `id_elem` at line 275: None, False, 0 and empty strings and containers are false |
| PyValues.PyEq | tw2/forms/widgets.py:152 | Python `==`: bools equal the ints 0 and 1, a tuple never equals a list, containers compare element by element, other values by identity of kind and content |
| Widgets.HasId | tw2/forms/widgets.py:275 | `c.id_elem` is truthy: present and not the empty string |
| OptionNormaliser.IterateOption | tw2/forms/widgets.py:166-171 | a value that is not a tuple or list becomes the pair `(v, v)`, so the code defaults to the label; tuples and lists pass through unchanged |
| OptionNormaliser.GroupIndicesSound | tw2/forms/widgets.py:134-139 | the group entries are exactly the indexable entries whose second item is a tuple or list, listed in input order |
| OptionNormaliser.IsSelected | tw2/forms/widgets.py:129-152 | single-select: selected iff `code == value` in Python's sense; multi-select: the result of `code in value`, including its TypeError; a falsy multi-select value selects nothing |
| OptionNormaliser.NormaliseOption | tw2/forms/widgets.py:141-155 | one option normalises iff `dict(option[2])` and the selection test both succeed; otherwise it raises the first of their errors; the label is `option[1]` |
| OptionNormaliser.NormaliseOptionAttributes | tw2/forms/widgets.py:141-153 | the keys are exactly the extras' keys plus `value`, `type`/`name`/`id` with a field type, and the verb when selected; the marker wins over `value` and the field keys, which win over the extras; other extras are kept |
| OptionNormaliser.NormaliseListLength | tw2/forms/widgets.py:140-155 | a normalised option list has one result per option spec |
| OptionNormaliser.NormaliseListSucceeds | tw2/forms/widgets.py:140-155 | an option list normalises iff every option does, each at its own position |
| OptionNormaliser.NormaliseListAt | tw2/forms/widgets.py:140-155 | the `t`-th result is the `t`-th option normalised at position `start + t` |
| OptionNormaliser.AllSucceedConcat | tw2/forms/widgets.py:140-156 | the options of two consecutive lists all succeed iff those of each list do, the second list's positions offset by the first's length |
| OptionNormaliser.AllMatchConcat | tw2/forms/widgets.py:140-156 | two lists normalised in turn give the concatenated list normalised |
| OptionProperties.EntriesLength | tw2/forms/widgets.py:132-156 | the accumulated flat list has one option per inner option spec of all entries |
| OptionProperties.EntriesFlat | tw2/forms/widgets.py:132-156 | the accumulated flat list is every inner option spec of the entries, in input order, normalised at its flat position |
| OptionProperties.EntriesGroups | tw2/forms/widgets.py:132-158 | the accumulated groups are exactly the group entries in input order, each with its label and its own slice of the flat list |
| OptionProperties.EntryGroup | tw2/forms/widgets.py:156-158 | every group entry's group is among the accumulated groups |
| OptionProperties.EntriesOkIndexable | tw2/forms/widgets.py:132-134 | if the entry loop succeeds, no entry raised IndexError on `optgroup[1]` |
| OptionProperties.EntriesOkSteps | tw2/forms/widgets.py:140-155 | if the entry loop succeeds, every inner option normalised |
| OptionProperties.EntriesSucceedIf | tw2/forms/widgets.py:132-158 | if every entry is indexable and every inner option normalises, the entry loop succeeds |
| OptionProperties.ListErrExtends | tw2/forms/widgets.py:140-155 | an exception in an option stops the list: the whole list fails with it |
| OptionProperties.EntriesErrExtends | tw2/forms/widgets.py:132-158 | an exception in an entry stops the loop: the whole loop fails with it |
| OptionProperties.FlatOptionsLength | tw2/forms/widgets.py:156-162 | `self.options` is as long as the total number of inner options |
| OptionProperties.FlatOptionAt | tw2/forms/widgets.py:140-162 | the `j`-th flat option is the `j`-th inner option spec normalised as option `j`: every entry's list, concatenated in order |
| OptionProperties.GroupedOptionsShape | tw2/forms/widgets.py:157-163 | with no group entries `grouped_options == [(None, options)]`; otherwise exactly the groups in input order with their own options, non-group entries appearing only in the flat list |
| OptionProperties.IndexableIff | tw2/forms/widgets.py:132-134 | an entry can be indexed iff `_iterate_options` gives it at least two items |
| OptionProperties.NormaliseSucceedsIff | tw2/forms/widgets.py:132-158 | `prepare` raises exactly when some entry has fewer than two items or some option's extras or selection test raise |
| OptionProperties.BareEntryOption | tw2/forms/widgets.py:136-139 | a bare top-level value `x` contributes the single flat option `(x, x)`, whose label is `x` and whose `value` is `x` unless the selected verb is `value` |
| OptionProperties.GroupEntryOptions | tw2/forms/widgets.py:134-158 | a group entry `(label, items)` contributes its items as consecutive flat options; its group holds exactly those normalised options under `label` |
| OptionProperties.SelectedMarkerExact | tw2/forms/widgets.py:151-153 | when the verb is not a generated key or an extra, the marker `attrs[verb] == verb` is present iff the option is selected |
| OptionProperties.NormaliseOptionPositionFree | tw2/forms/widgets.py:146-150 | without a field type the counter is never read, so an option's position does not matter |
| OptionProperties.OptionIdInjective | tw2/forms/widgets.py:150 | ids built from different counter values differ |
| OptionProperties.OptionIdsDistinct | tw2/forms/widgets.py:127-153 | with a field type and a selected verb other than `id`, any two flat options have distinct `id`s, even across groups; with the verb `id`, line 153 overwrites every selected option's `id` with `'id'`, so ids are not distinct then (OptionProperties.IdVerbClashes) |
| OptionProperties.IdVerbClashes | tw2/forms/widgets.py:146-153 | with the selected verb `id`, any two selected options both end up with `id == 'id'`: the marker overwrites the generated id, so the ids are not distinct |
| Decimal.ParseNatToString | tw2/forms/widgets.py:150 | reading back `str(n)` gives `n` |
| Decimal.NatToStringInjective | tw2/forms/widgets.py:150 | distinct counter values give distinct `str(n)` |
| PyValues.Contains | tw2/forms/widgets.py:151 | `x in container` for tuples and lists is Python equality against some element; non-iterables raise TypeError |
| PyValues.ToDict | tw2/forms/widgets.py:144 | `dict(d)` of a dict copies it; `dict` of None, a bool or an int raises TypeError |
| PyValues.PairsToDict | tw2/forms/widgets.py:144 | `dict(pairs)` succeeds only when every element is iterable, and the last pair's key maps to its value |
| PyValues.PyEqReflexive | tw2/forms/widgets.py:152 | every value equals itself under Python `==` |
| Selection.SelectionField.NormaliseOne | tw2/forms/widgets.py:141-155 | the inner loop body builds exactly the normalised option, and advances the counter only with a field type |
| Selection.SelectionField.NormaliseOptionList | tw2/forms/widgets.py:140-156 | the inner loop builds exactly the normalised list of the entry's options; on success the counter has moved by their number with a field type |
| Selection.SelectionField.Prepare | tw2/forms/widgets.py:123-163 | `prepare` raises iff the reference raises, with the same exception, and then leaves the outputs unassigned; otherwise the flat and grouped outputs are exactly the reference's |
| RowChunker.GroupRows | tw2/forms/widgets.py:216-228 | the rows concatenate to the input; each has 1 to `size` items; all but the last are full; there are `ceil(n / size)` rows |
| RowChunker.RowCount | tw2/forms/widgets.py:216-228 | any such split has `ceil(n / size)` rows |
| RowChunker.LastRowLength | tw2/forms/widgets.py:216-228 | the last row holds `n % size` items, or `size` when that is 0 |
| RowChunker.EmptyHasNoRows | tw2/forms/widgets.py:216-228 | the empty input yields no rows |
| RowChunker.RowSplitUnique | tw2/forms/widgets.py:216-228 | there is exactly one such split, so `GroupRows`'s result is determined by its contract |
| Selection.SelectionTable.Prepare | tw2/forms/widgets.py:230-233 | after the selection field's `prepare`, the flat options and every group's options are split into rows of `cols`, group labels unchanged; on an exception neither the rows nor the field's flat and grouped options are assigned |
| Widgets.CheckedAttrs | tw2/forms/widgets.py:47 | `checked` is `'true'` iff the value is truthy and `None` iff it is not; the other attributes are unchanged |
| Widgets.CheckBox.Prepare | tw2/forms/widgets.py:43-48 | the attributes gain the checked flag of the old value, and the value becomes `None` |
| Widgets.SubmitPostDefine | tw2/forms/widgets.py:74-77 | a ParameterError exactly when `id_elem == 'submit'` |
| Widgets.AutoLabel | tw2/forms/widgets.py:274-275 | an `Auto` label becomes `name2label(id_elem)`, or `''` without an id; every other label, `None` included, is kept; the result is never `Auto` |
| Widgets.AutoLabelIdempotent | tw2/forms/widgets.py:274-275 | deriving a label twice is deriving it once |
| Widgets.BaseLayout.Prepare | tw2/forms/widgets.py:271-275 | every child's label becomes its derived label, even when a child is listed twice |

## Left out

- Templates, HTML rendering, validators, `FormPage.request`/`validated_request` (tw2/forms/widgets.py:369-386) and the CSS resource (line 269) are not modelled, since they carry no logic of the core.
- The `super().prepare()` calls and the tw2.core parameter machinery are left out: they belong to the framework. `_compound_id()`, `name2label` and `Auto` are parameters, as described above.
- `ImageButton.prepare` (lines 92-95) only copies the framework-resolved link into an attribute, and is not modelled.
- Selection.SelectionField.Prepare: option specs inside an entry must have length 2 or 3 (`OptionInModel`). For other lengths the source leaves `option_attrs` unbound or stale from the previous option.
- Selection.SelectionField.Prepare: a `dict(...)` argument may not hold dicts, and its hashable keys must be strings (`DictArgInModel`). Dict key order and non-string attribute names are not represented.
- Floats and other Python types are not among the modelled values.
- `len(option) is 2` is modelled as `==`. CPython caches small integers, so the identity test behaves as equality.
- Selection.SelectionField.Prepare writes its flat list to `flatOptions` and leaves `options` in place. The source overwrites `self.options`.
- OptionNormaliser.NormaliseOption takes the option's flat position as its id number, where the source reads a shared counter. Selection.SelectionField.Prepare keeps the counter and proves it equal to the position whenever a field type is set; without a field type no id is built (NormaliseOptionPositionFree).
- Selection.SelectionTable: inheritance from `SelectionField` is modelled by composition, through the `field` member.
- RowChunker.GroupRows: the generator's laziness is not modelled; it returns the full list of rows. `size > 0` is required, because with a size of 0 or less the source yields empty rows forever.
- Selection.SelectionTable.Prepare: `cols` is a natural number greater than 0, for the same reason.
- Widgets.CheckBox.Prepare: copying `attrs` on first use (lines 45-46) guards against mutating the class-level dict. The model keeps attributes as a map value per widget, so no sharing exists to guard against.
- Subclass defaults (`SelectionList` uses `checked`, `CheckBoxList` is multiple, and so on) are ordinary field values of the model.
