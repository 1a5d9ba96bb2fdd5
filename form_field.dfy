/**
 * The value rules of one form field: for each field type the widget that
 * renders it, the value that widget hands to the answer-map handler when the
 * user edits it, and what the widget displays for a stored answer.
 *
 * Nothing here changes state: each edit computes a new answer from the old
 * one and the input event, without touching the old answer.
 */
module FormField {
  import opened Wrappers
  import Decimal

  /**
   * A stored answer: a string (every scalar, textarea and radio field, and
   * `number` fields too), a list of option labels (checkbox and checklist),
   * or an object of string-valued properties (dimensions).
   */
  datatype Value =
    | Text(s: string)
    | Items(xs: seq<string>)
    | Record(slots: map<string, string>)

  /** The widget a field type renders as; `inputType` is the single-line input's own type. */
  datatype Shape =
    | SingleLine(inputType: string)
    | MultiLine
    | Dimensions
    | SingleChoice
    | MultiChoice

  /** The two inputs of a dimensions field. */
  datatype Slot = Length | Width

  /** An input event, as the rendered widget reports it. */
  datatype Edit =
    | Input(raw: string)                      // e.target.value of an input, a textarea or a radio button
    | SlotInput(slot: Slot, raw: string)      // e.target.value of one of the two dimension inputs
    | Toggle(option: string, isChecked: bool) // e.target.checked of one checkbox

  function SlotName(slot: Slot): string {
    match slot
    case Length => "length"
    case Width => "width"
  }

  function OtherSlot(slot: Slot): Slot {
    match slot
    case Length => Width
    case Width => Length
  }

  /** The field types the renderer knows. */
  const RenderedTypes: set<string> :=
    {"text", "number", "date", "tel", "email", "textarea", "dimensions", "radio", "checkbox", "checklist"}

  /** The widget for a field type; `None` is the renderer's default case, which renders nothing. */
  function ShapeOf(fieldType: string): (r: Option<Shape>)
    ensures r.None? <==> fieldType !in RenderedTypes
    ensures r == Some(MultiChoice) <==> fieldType == "checkbox" || fieldType == "checklist"
    ensures r == Some(SingleChoice) <==> fieldType == "radio"
    ensures r == Some(Dimensions) <==> fieldType == "dimensions"
    ensures r.Some? && r.value.SingleLine? ==> r.value.inputType == fieldType
  {
    match fieldType
    case "text" => Some(SingleLine(fieldType))
    case "number" => Some(SingleLine(fieldType))
    case "date" => Some(SingleLine(fieldType))
    case "tel" => Some(SingleLine(fieldType))
    case "email" => Some(SingleLine(fieldType))
    case "textarea" => Some(MultiLine)
    case "dimensions" => Some(Dimensions)
    case "radio" => Some(SingleChoice)
    case "checkbox" => Some(MultiChoice)
    case "checklist" => Some(MultiChoice)
    case _ => None
  }

  /** True for the widgets whose edits replace the whole answer by the raw input string. */
  predicate ReplacesWholesale(shape: Shape) {
    shape.SingleLine? || shape.MultiLine? || shape.SingleChoice?
  }

  // ---------------------------------------------------------------------
  // Checkbox and checklist: an ordered list toggled by append or filter
  // ---------------------------------------------------------------------

  /** The current answer as a list: anything that is not an array counts as the empty list. */
  function AsList(v: Option<Value>): (r: seq<string>)
    ensures v.Some? && v.value.Items? ==> r == v.value.xs
    ensures !(v.Some? && v.value.Items?) ==> r == []
  {
    if v.Some? && v.value.Items? then v.value.xs else []
  }

  /** `xs.filter(x => x !== option)`. */
  function Without(xs: seq<string>, option: string): seq<string>
    decreases |xs|
  {
    if |xs| == 0 then []
    else if xs[0] == option then Without(xs[1..], option)
    else [xs[0]] + Without(xs[1..], option)
  }

  /** `a` is `b` with some elements left out, the rest in their original order. */
  predicate IsSubsequence(a: seq<string>, b: seq<string>)
    decreases |b|
  {
    if |a| == 0 then true
    else if |b| == 0 then false
    else (a[0] == b[0] && IsSubsequence(a[1..], b[1..])) || IsSubsequence(a, b[1..])
  }

  /**
   * The list a checkbox hands on when it is toggled: checking appends the
   * option (whether or not it is already there), unchecking drops it.
   */
  function CheckboxChange(current: Option<Value>, option: string, isChecked: bool): (r: seq<string>)
    ensures isChecked ==> |r| == |AsList(current)| + 1
    ensures isChecked ==> r[..|AsList(current)|] == AsList(current) && r[|AsList(current)|] == option
    ensures isChecked ==> multiset(r)[option] == multiset(AsList(current))[option] + 1
  {
    var values := AsList(current);
    if isChecked then
      assert multiset(values + [option]) == multiset(values) + multiset{option};
      values + [option]
    else
      Without(values, option)
  }

  /** Whether a checkbox for `option` shows as checked. */
  predicate CheckboxChecked(v: Option<Value>, option: string) {
    v.Some? && v.value.Items? && option in v.value.xs
  }

  lemma CheckedMeansListed(v: Option<Value>, option: string)
    ensures CheckboxChecked(v, option) <==> option in AsList(v)
  {
  }

  /** Unchecking drops every occurrence of the option and keeps every other element, as often as it was there. */
  lemma {:induction false} UncheckRemovesEveryOccurrence(xs: seq<string>, option: string)
    ensures option !in Without(xs, option)
    ensures forall y :: y != option ==> multiset(Without(xs, option))[y] == multiset(xs)[y]
    decreases |xs|
  {
    if |xs| > 0 {
      UncheckRemovesEveryOccurrence(xs[1..], option);
      assert xs == [xs[0]] + xs[1..];
      assert multiset(xs) == multiset{xs[0]} + multiset(xs[1..]);
      if xs[0] != option {
        assert multiset(Without(xs, option)) == multiset{xs[0]} + multiset(Without(xs[1..], option));
      }
    }
  }

  /** Unchecking keeps the remaining elements in their original relative order. */
  lemma {:induction false} UncheckKeepsOrder(xs: seq<string>, option: string)
    ensures IsSubsequence(Without(xs, option), xs)
    decreases |xs|
  {
    if |xs| > 0 {
      UncheckKeepsOrder(xs[1..], option);
      if xs[0] != option {
        var w := Without(xs, option);
        assert w[0] == xs[0] && w[1..] == Without(xs[1..], option);
      } else {
        var w := Without(xs, option);
        if |w| > 0 {
          assert IsSubsequence(w, xs[1..]);
        }
      }
    }
  }

  /** Unchecking an option that is not in the list gives back the same list. */
  lemma {:induction false} UncheckAbsentIsNoOp(xs: seq<string>, option: string)
    requires option !in xs
    ensures Without(xs, option) == xs
    decreases |xs|
  {
    if |xs| > 0 {
      assert option !in xs[1..];
      UncheckAbsentIsNoOp(xs[1..], option);
      assert xs == [xs[0]] + xs[1..];
    }
  }

  lemma {:induction false} WithoutAppend(xs: seq<string>, y: string, option: string)
    ensures Without(xs + [y], option) == Without(xs, option) + Without([y], option)
    decreases |xs|
  {
    if |xs| == 0 {
      assert xs + [y] == [y];
    } else {
      assert (xs + [y])[0] == xs[0];
      assert (xs + [y])[1..] == xs[1..] + [y];
      WithoutAppend(xs[1..], y, option);
    }
  }

  /** On a non-list answer, checking gives `[option]` and unchecking gives `[]`. */
  lemma NonListTreatedAsEmpty(current: Option<Value>, option: string)
    requires !(current.Some? && current.value.Items?)
    ensures CheckboxChange(current, option, true) == [option]
    ensures CheckboxChange(current, option, false) == []
  {
  }

  /** Checking an unchecked option appends it at the end, and it then occurs exactly once. */
  lemma CheckAbsentOccursOnce(current: Option<Value>, option: string)
    requires !CheckboxChecked(current, option)
    ensures CheckboxChange(current, option, true) == AsList(current) + [option]
    ensures multiset(CheckboxChange(current, option, true))[option] == 1
  {
    assert option !in multiset(AsList(current));
  }

  /** Checking an option that is already listed adds a second copy: checking is not idempotent. */
  lemma RecheckDuplicates(current: Option<Value>, option: string)
    requires CheckboxChecked(current, option)
    ensures multiset(CheckboxChange(current, option, true))[option] >= 2
  {
    assert option in multiset(AsList(current));
  }

  /** Checking an unchecked option and then unchecking it gives back the original list. */
  lemma CheckThenUncheckRestores(current: Option<Value>, option: string)
    requires !CheckboxChecked(current, option)
    ensures CheckboxChange(Some(Items(CheckboxChange(current, option, true))), option, false) == AsList(current)
  {
    var xs := AsList(current);
    WithoutAppend(xs, option, option);
    assert Without([option], option) == [];
    UncheckAbsentIsNoOp(xs, option);
  }

  /** After a toggle the box for that option shows the new state, and every other box keeps its state. */
  lemma ToggleShows(current: Option<Value>, option: string, isChecked: bool, other: string)
    requires other != option
    ensures CheckboxChecked(Some(Items(CheckboxChange(current, option, isChecked))), option) == isChecked
    ensures CheckboxChecked(Some(Items(CheckboxChange(current, option, isChecked))), other)
         == CheckboxChecked(current, other)
  {
    var xs := AsList(current);
    if isChecked {
      assert CheckboxChange(current, option, isChecked)[|xs|] == option;
      assert other in xs + [option] <==> other in xs;
    } else {
      UncheckRemovesEveryOccurrence(xs, option);
      assert other in multiset(Without(xs, option)) <==> other in multiset(xs);
    }
  }

  // ---------------------------------------------------------------------
  // Dimensions: a record of two slots, each edit spreads the old value
  // ---------------------------------------------------------------------

  /** The object whose keys are the decimal indices of `xs`, as spread copies an array or a string. */
  function IndexRecord(xs: seq<string>): (r: map<string, string>)
    ensures forall k :: k in r ==> Decimal.AllDigits(k)
    ensures forall k :: k in r ==> Decimal.IsIndexKey(k, |xs|)
    ensures forall i :: 0 <= i < |xs| ==> Decimal.NatToString(i) in r && r[Decimal.NatToString(i)] == xs[i]
    decreases |xs|
  {
    if |xs| == 0 then map[]
    else
      var last := |xs| - 1;
      var rest := IndexRecord(xs[..last]);
      forall i: nat | i < last ensures Decimal.NatToString(i) != Decimal.NatToString(last) {
        Decimal.NatToStringInjective(i, last);
      }
      var r := rest[Decimal.NatToString(last) := xs[last]];
      Decimal.ParseNatToString(last);
      r
  }

  /** The properties `{...value}` copies: those of an object, the indices of an array or string, none of `undefined`. */
  function Spread(v: Option<Value>): (r: map<string, string>)
    ensures v.None? ==> r == map[]
    ensures v.Some? && v.value.Record? ==> r == v.value.slots
    ensures v.Some? && !v.value.Record? ==> forall k :: k in r ==> Decimal.AllDigits(k)
    ensures v.Some? && v.value.Items? ==>
              && (forall k :: k in r ==> Decimal.IsIndexKey(k, |v.value.xs|))
              && (forall i :: 0 <= i < |v.value.xs| ==>
                    Decimal.NatToString(i) in r && r[Decimal.NatToString(i)] == v.value.xs[i])
    ensures v.Some? && v.value.Text? ==>
              && (forall k :: k in r ==> Decimal.IsIndexKey(k, |v.value.s|))
              && (forall i :: 0 <= i < |v.value.s| ==>
                    Decimal.NatToString(i) in r && r[Decimal.NatToString(i)] == [v.value.s[i]])
  {
    match v
    case None => map[]
    case Some(Record(slots)) => slots
    case Some(Items(xs)) => IndexRecord(xs)
    case Some(Text(s)) =>
      var chars := seq(|s|, i requires 0 <= i < |s| => [s[i]]);
      assert |chars| == |s|;
      IndexRecord(chars)
  }

  /** The record a dimension input hands on: `{...value, [slot]: raw}`. */
  function DimensionsChange(current: Option<Value>, slot: Slot, raw: string): (r: map<string, string>)
    ensures SlotName(slot) in r && r[SlotName(slot)] == raw
    ensures forall k :: k != SlotName(slot) ==> (k in r <==> k in Spread(current))
    ensures forall k :: k != SlotName(slot) && k in r ==> r[k] == Spread(current)[k]
  {
    Spread(current)[SlotName(slot) := raw]
  }

  /** From an unanswered field, an edit sets only the edited slot. */
  lemma DimensionsFromUndefined(slot: Slot, raw: string)
    ensures DimensionsChange(None, slot, raw) == map[SlotName(slot) := raw]
  {
  }

  /** Editing one slot of a stored record keeps the other slot as it was (present or absent). */
  lemma DimensionsEditKeepsOtherSlot(current: Option<Value>, slot: Slot, raw: string)
    requires current.None? || current.value.Record?
    ensures var other := SlotName(OtherSlot(slot));
            var r := DimensionsChange(current, slot, raw);
            (other in r <==> other in Spread(current)) && (other in r ==> r[other] == Spread(current)[other])
    ensures SlotDisplay(Some(Record(DimensionsChange(current, slot, raw))), OtherSlot(slot))
         == SlotDisplay(current, OtherSlot(slot))
  {
  }

  /** Editing length then width gives the same record as editing width then length. */
  lemma DimensionsEditsCommute(current: Option<Value>, length: string, width: string)
    ensures DimensionsChange(Some(Record(DimensionsChange(current, Length, length))), Width, width)
         == DimensionsChange(Some(Record(DimensionsChange(current, Width, width))), Length, length)
  {
    var a := DimensionsChange(Some(Record(DimensionsChange(current, Length, length))), Width, width);
    var b := DimensionsChange(Some(Record(DimensionsChange(current, Width, width))), Length, length);
    assert a.Keys == b.Keys;
  }

  // ---------------------------------------------------------------------
  // Dispatch on the field's widget, and what a widget displays
  // ---------------------------------------------------------------------

  /**
   * The value the widget of `shape` hands to the answer-map handler for event
   * `e`, or `None` when that widget has no input that reports `e`.
   */
  function Change(shape: Shape, current: Option<Value>, e: Edit): (r: Option<Value>)
    ensures r.Some? <==> ((ReplacesWholesale(shape) && e.Input?)
                          || (shape.Dimensions? && e.SlotInput?)
                          || (shape.MultiChoice? && e.Toggle?))
    ensures r.Some? && ReplacesWholesale(shape) ==> r.value.Text?
    ensures r.Some? && shape.Dimensions? ==> r.value.Record?
    ensures r.Some? && shape.MultiChoice? ==> r.value.Items?
  {
    match e
    case Input(raw) =>
      if ReplacesWholesale(shape) then Some(Text(raw)) else None
    case SlotInput(slot, raw) =>
      if shape.Dimensions? then Some(Record(DimensionsChange(current, slot, raw))) else None
    case Toggle(option, isChecked) =>
      if shape.MultiChoice? then Some(Items(CheckboxChange(current, option, isChecked))) else None
  }

  /** The text a single-line input or a textarea shows for a stored answer: `value || ''`. */
  function ScalarDisplay(v: Option<Value>): (r: string)
    ensures v.None? ==> r == ""
    ensures v.Some? && v.value.Text? ==> r == v.value.s
  {
    match v
    case None => ""
    case Some(Text(s)) => s
    case Some(Items(xs)) => Join(xs)
    case Some(Record(_)) => "[object Object]"
  }

  /** An array's string conversion: its elements joined by commas. */
  function Join(xs: seq<string>): string
    decreases |xs|
  {
    if |xs| == 0 then "" else if |xs| == 1 then xs[0] else xs[0] + "," + Join(xs[1..])
  }

  /**
   * What one dimension input shows: `value?.length || ''` (or `width`). A string
   * or an array has a numeric `length` of its own, shown as its decimal text.
   */
  function SlotDisplay(v: Option<Value>, slot: Slot): (r: string)
    ensures v.None? ==> r == ""
    ensures v.Some? && v.value.Record? ==> r == (if SlotName(slot) in v.value.slots then v.value.slots[SlotName(slot)] else "")
  {
    match v
    case None => ""
    case Some(Record(slots)) => if SlotName(slot) in slots then slots[SlotName(slot)] else ""
    case Some(Text(s)) => LengthDisplay(slot, |s|)
    case Some(Items(xs)) => LengthDisplay(slot, |xs|)
  }

  function LengthDisplay(slot: Slot, n: nat): string {
    if slot.Width? || n == 0 then "" else Decimal.NatToString(n)
  }

  /** A dimension input hands on the edited record, and that input then shows the raw string. */
  lemma DimensionsEditStoresRecord(current: Option<Value>, slot: Slot, raw: string)
    ensures Change(Dimensions, current, SlotInput(slot, raw)) == Some(Record(DimensionsChange(current, slot, raw)))
    ensures SlotDisplay(Change(Dimensions, current, SlotInput(slot, raw)), slot) == raw
  {
  }

  /** A checkbox or checklist toggle hands on the toggled list, and the box then shows the new state. */
  lemma ToggleStoresList(current: Option<Value>, option: string, isChecked: bool)
    ensures Change(MultiChoice, current, Toggle(option, isChecked))
         == Some(Items(CheckboxChange(current, option, isChecked)))
    ensures CheckboxChecked(Change(MultiChoice, current, Toggle(option, isChecked)), option) == isChecked
  {
    var xs := AsList(current);
    if isChecked {
      assert CheckboxChange(current, option, isChecked)[|xs|] == option;
    } else {
      UncheckRemovesEveryOccurrence(xs, option);
    }
  }

  /** Whether the radio button for `option` shows as selected: `value === option`. */
  predicate RadioChecked(v: Option<Value>, option: string) {
    v == Some(Text(option))
  }

  /**
   * A text-like, textarea or radio edit stores the raw input string whatever
   * was there before (a `number` field stores a string too), and the widget
   * then shows exactly that string.
   */
  lemma ScalarPassThrough(shape: Shape, current: Option<Value>, raw: string)
    requires ReplacesWholesale(shape)
    ensures Change(shape, current, Input(raw)) == Some(Text(raw))
    ensures ScalarDisplay(Change(shape, current, Input(raw))) == raw
  {
  }

  /** An unanswered or cleared scalar shows as the empty string. */
  lemma FalsyScalarShowsEmpty(v: Option<Value>)
    requires v.None? || v == Some(Text(""))
    ensures ScalarDisplay(v) == ""
  {
  }

  /** After a dimension edit the edited input shows exactly the raw string. */
  lemma SlotDisplayAfterEdit(current: Option<Value>, slot: Slot, raw: string)
    ensures SlotDisplay(Some(Record(DimensionsChange(current, slot, raw))), slot) == raw
  {
  }

  /** Picking a radio option selects that option and no other. */
  lemma RadioSelectsExactlyOne(current: Option<Value>, picked: string, option: string)
    ensures RadioChecked(Change(SingleChoice, current, Input(picked)), option) <==> option == picked
  {
  }
}
