/** The four-step wizard of `components/forms/FeaturedPlacementForm.tsx`:
    placement type, creative content, duration and budget, review. The price
    is the type's daily price times the duration; the budget entered is
    stored but never priced. */
module FeaturedPlacementForm {
  import opened Common

  datatype PlacementType = PlacementType(id: string, name: string, price: int)

  const PlacementTypes: seq<PlacementType> := [
    PlacementType("banner", "Banner Ad", 15000),
    PlacementType("spotlight", "Artist Spotlight", 25000),
    PlacementType("event", "Event Promotion", 20000),
    PlacementType("dj", "DJ/Radio Promotion", 30000)
  ]

  const TypeIds: seq<string> := ["banner", "spotlight", "event", "dj"]

  /** The options of the duration select, in days. */
  const Durations: seq<int> := [3, 7, 14, 30]

  datatype PlacementData = PlacementData(
    placementType: string,
    title: string,
    description: string,
    imageUrl: string,
    targetUrl: string,
    duration: int,
    budget: int,
    priority: string,
    targetAudience: string)

  const InitialData := PlacementData("banner", "", "", "", "", 7, 0, "normal", "all")

  function TypeId(t: PlacementType): string {
    t.id
  }

  /** `selectedType ? selectedType.price * formData.duration : 0`. */
  function TotalCost(d: PlacementData): int {
    match Find(PlacementTypes, TypeId, d.placementType)
    case Some(t) => t.price * d.duration
    case None => 0
  }

  /** The daily price of each offered type. */
  lemma TypePrices()
    ensures Find(PlacementTypes, TypeId, "banner") == Some(PlacementTypes[0])
    ensures Find(PlacementTypes, TypeId, "spotlight") == Some(PlacementTypes[1])
    ensures Find(PlacementTypes, TypeId, "event") == Some(PlacementTypes[2])
    ensures Find(PlacementTypes, TypeId, "dj") == Some(PlacementTypes[3])
  {
    assert "spotlight" != "banner";
    assert "event" != "banner" && "event" != "spotlight";
    assert "dj" != "banner" && "dj" != "spotlight" && "dj" != "event";
  }

  /** The cost of an offered type is its daily price times the duration. */
  lemma CostCorrect(d: PlacementData)
    ensures d.placementType == "banner" ==> TotalCost(d) == 15000 * d.duration
    ensures d.placementType == "spotlight" ==> TotalCost(d) == 25000 * d.duration
    ensures d.placementType == "event" ==> TotalCost(d) == 20000 * d.duration
    ensures d.placementType == "dj" ==> TotalCost(d) == 30000 * d.duration
  {
    TypePrices();
  }

  /** An unknown type costs nothing, whatever the duration. */
  lemma UnknownTypeCostsNothing(d: PlacementData)
    requires d.placementType !in TypeIds
    ensures TotalCost(d) == 0
  {
    forall i | 0 <= i < |PlacementTypes| ensures PlacementTypes[i].id != d.placementType {
      assert PlacementTypes[i].id == TypeIds[i];
    }
  }

  /** Over the offered types and durations the cost runs from 45000 (a banner
      for 3 days) to 900000 (DJ promotion for 30 days). */
  lemma OfferedCostRange(d: PlacementData)
    requires d.placementType in TypeIds && d.duration in Durations
    ensures 45000 <= TotalCost(d) <= 900000
    ensures TotalCost(d.(placementType := "banner", duration := 3)) == 45000
    ensures TotalCost(d.(placementType := "dj", duration := 30)) == 900000
  {
    assert 3 <= d.duration <= 30;
    assert d.placementType == "banner" || d.placementType == "spotlight"
      || d.placementType == "event" || d.placementType == "dj";
    CostCorrect(d);
    CostCorrect(d.(placementType := "banner", duration := 3));
    CostCorrect(d.(placementType := "dj", duration := 30));
  }

  /** A longer placement of the same type never costs less. */
  lemma CostMonotoneInDuration(d: PlacementData, days: int)
    requires d.duration <= days
    ensures TotalCost(d) <= TotalCost(d.(duration := days))
  {
    var r := Find(PlacementTypes, TypeId, d.placementType);
    if r.Some? {
      var k :| 0 <= k < |PlacementTypes| && PlacementTypes[k] == r.value;
      assert r.value.price >= 0;
      ScaleMonotone(r.value.price, d.duration, days);
    }
  }

  lemma ScaleMonotone(price: int, a: int, b: int)
    requires price >= 0 && a <= b
    ensures price * a <= price * b
  {
    assert price * b - price * a == price * (b - a);
  }

  // ---------------------------------------------------------------------
  // `parseInt`

  predicate IsDigit(c: char) {
    '0' <= c <= '9'
  }

  /** The value of a string of decimal digits. */
  function DigitsValue(s: string): (n: nat)
    requires forall i :: 0 <= i < |s| ==> IsDigit(s[i])
  {
    if s == [] then 0
    else
      assert IsDigit(s[|s| - 1]);
      DigitsValue(s[..|s| - 1]) * 10 + (s[|s| - 1] as int - '0' as int)
  }

  /** The longest prefix of `s` made of digits. */
  function DigitPrefix(s: string): (r: string)
    ensures |r| <= |s| && r == s[..|r|]
    ensures forall i :: 0 <= i < |r| ==> IsDigit(r[i])
    ensures |r| < |s| ==> !IsDigit(s[|r|])
  {
    if s != [] && IsDigit(s[0]) then [s[0]] + DigitPrefix(s[1..]) else []
  }

  /** `parseInt(text)` in base 10: leading white space skipped, an optional
      sign, then the longest run of digits; no digit at all is NaN (`None`). */
  function ParseInt(text: string): (r: Option<int>)
    ensures r.Some? ==> exists i :: 0 <= i < |text| && IsDigit(text[i])
  {
    var t := TrimStart(text);
    var r := ParseSigned(t);
    assert r.Some? ==> IsDigit(text[|text| - |Unsigned(t)|]);
    r
  }

  /** `parseInt` once the leading white space is gone: an optional sign and
      the digits after it. */
  function ParseSigned(t: string): (r: Option<int>)
    ensures r.Some? ==> Unsigned(t) != [] && IsDigit(Unsigned(t)[0])
  {
    var digits := DigitPrefix(Unsigned(t));
    if digits == [] then None
    else
      var v: int := DigitsValue(digits);
      Some(if t[0] == '-' then -v else v)
  }

  /** The text after an optional leading sign. */
  function Unsigned(t: string): (r: string)
    ensures |r| <= |t| && r == t[|t| - |r|..]
  {
    if t != [] && (t[0] == '-' || t[0] == '+') then t[1..] else t
  }

  /** `parseInt(e.target.value) || 0`: NaN (and 0) become 0. */
  function ParseBudget(text: string): (r: int)
    ensures ParseInt(text).None? ==> r == 0
    ensures ParseInt(text).Some? ==> r == ParseInt(text).value
  {
    match ParseInt(text)
    case None => 0
    case Some(v) => v
  }

  /** Reading the digits of a number back gives the number. */
  lemma {:induction false} DigitsOfDecimal(n: nat)
    ensures DigitsValue(Decimal(n)) == n
  {
    if n >= 10 {
      DigitsOfDecimal(n / 10);
      var s := Decimal(n);
      assert s[..|s| - 1] == Decimal(n / 10);
    }
  }

  lemma {:induction false} DigitPrefixAll(s: string)
    requires forall i :: 0 <= i < |s| ==> IsDigit(s[i])
    ensures DigitPrefix(s) == s
  {
    if s != [] {
      DigitPrefixAll(s[1..]);
    }
  }

  /** A non-empty run of digits parses to its value. */
  lemma ParseIntOfDigits(s: string)
    requires s != [] && forall i :: 0 <= i < |s| ==> IsDigit(s[i])
    ensures ParseInt(s) == Some(DigitsValue(s))
  {
    ParseSignedOfDigits(s, []);
    assert s + [] == s;
  }

  /** A budget typed as the digits of a whole number is read as that
      number. */
  lemma ParseBudgetOfDecimal(n: nat)
    ensures ParseBudget(Decimal(n)) == n
  {
    ParseIntOfDigits(Decimal(n));
    DigitsOfDecimal(n);
  }

  /** Text with no digit at all reads as 0. */
  lemma ParseBudgetNoDigits(text: string)
    requires forall i :: 0 <= i < |text| ==> !IsDigit(text[i])
    ensures ParseBudget(text) == 0
  {
  }

  /** Leading white space never changes what `parseInt` reads. */
  lemma {:induction false} ParseIntSkipsSpace(w: string, t: string)
    requires forall i :: 0 <= i < |w| ==> IsSpace(w[i])
    ensures ParseInt(w + t) == ParseInt(t)
  {
    TrimStartSkipsSpace(w, t);
  }

  /** The digit run stops at the first character that is not a digit. */
  lemma {:induction false} DigitPrefixStops(digits: string, rest: string)
    requires forall i :: 0 <= i < |digits| ==> IsDigit(digits[i])
    requires rest == [] || !IsDigit(rest[0])
    ensures DigitPrefix(digits + rest) == digits
  {
    if digits != [] {
      assert (digits + rest)[1..] == digits[1..] + rest;
      DigitPrefixStops(digits[1..], rest);
    }
  }

  /** A sign, when there is one, is a single `-` or `+`. */
  predicate IsSign(sign: string) {
    sign == [] || (|sign| == 1 && (sign[0] == '-' || sign[0] == '+'))
  }

  /** White space, a run of digits and then anything that does not start
      with a digit: `parseInt` reads the digits' value and ignores what
      follows, and that value is the budget. */
  lemma ParseIntOfNumber(w: string, digits: string, rest: string)
    requires forall i :: 0 <= i < |w| ==> IsSpace(w[i])
    requires digits != [] && forall i :: 0 <= i < |digits| ==> IsDigit(digits[i])
    requires rest == [] || !IsDigit(rest[0])
    ensures ParseInt(w + digits + rest) == Some(DigitsValue(digits) as int)
    ensures ParseBudget(w + digits + rest) == DigitsValue(digits)
  {
    var t := digits + rest;
    ConcatThree(w, digits, rest);
    ParseSignedOfDigits(digits, rest);
    TrimStartSkipsSpace(w, t);
  }

  lemma ParseSignedOfDigits(digits: string, rest: string)
    requires digits != [] && forall i :: 0 <= i < |digits| ==> IsDigit(digits[i])
    requires rest == [] || !IsDigit(rest[0])
    ensures TrimStart(digits + rest) == digits + rest
    ensures ParseSigned(digits + rest) == Some(DigitsValue(digits) as int)
  {
    var t := digits + rest;
    assert t[0] == digits[0] && IsDigit(t[0]) && t[0] != '-' && t[0] != '+' && !IsSpace(t[0]);
    assert Unsigned(t) == t;
    DigitPrefixStops(digits, rest);
  }

  lemma ConcatThree(a: string, b: string, c: string)
    ensures a + b + c == a + (b + c)
  {
  }

  lemma ConcatFour(a: string, b: string, c: string, d: string)
    ensures a + b + c + d == a + (b + (c + d))
  {
  }

  /** The same after a `-` or `+` sign: a minus negates the value. */
  lemma ParseIntOfSignedNumber(w: string, sign: char, digits: string, rest: string)
    requires forall i :: 0 <= i < |w| ==> IsSpace(w[i])
    requires sign == '-' || sign == '+'
    requires digits != [] && forall i :: 0 <= i < |digits| ==> IsDigit(digits[i])
    requires rest == [] || !IsDigit(rest[0])
    ensures ParseInt(w + [sign] + digits + rest)
            == Some(var v: int := DigitsValue(digits); if sign == '-' then -v else v)
    ensures ParseBudget(w + [sign] + digits + rest)
            == var v: int := DigitsValue(digits); if sign == '-' then -v else v
  {
    var t := [sign] + (digits + rest);
    ConcatFour(w, [sign], digits, rest);
    ParseSignedOfSignedDigits(sign, digits, rest);
    TrimStartSkipsSpace(w, t);
  }

  lemma ParseSignedOfSignedDigits(sign: char, digits: string, rest: string)
    requires sign == '-' || sign == '+'
    requires digits != [] && forall i :: 0 <= i < |digits| ==> IsDigit(digits[i])
    requires rest == [] || !IsDigit(rest[0])
    ensures TrimStart([sign] + (digits + rest)) == [sign] + (digits + rest)
    ensures ParseSigned([sign] + (digits + rest))
            == Some(var v: int := DigitsValue(digits); if sign == '-' then -v else v)
  {
    var u := digits + rest;
    var t := [sign] + u;
    assert t[0] == sign && !IsSpace(t[0]) && t[1..] == u;
    assert Unsigned(t) == u;
    DigitPrefixStops(digits, rest);
  }

  /** White space and an optional sign followed by no digit: `parseInt`
      gives NaN, so the budget becomes 0. Together with `ParseIntOfNumber`
      and `ParseIntOfSignedNumber` this covers every text. */
  lemma ParseIntNoNumber(w: string, sign: string, rest: string)
    requires forall i :: 0 <= i < |w| ==> IsSpace(w[i])
    requires IsSign(sign)
    requires rest == [] || !IsDigit(rest[0])
    requires sign == [] && rest != [] ==> !IsSpace(rest[0]) && rest[0] != '-' && rest[0] != '+'
    ensures ParseInt(w + sign + rest).None?
    ensures ParseBudget(w + sign + rest) == 0
  {
    var t := sign + rest;
    ConcatThree(w, sign, rest);
    ParseIntSkipsSpace(w, t);
    ParseSignedNoNumber(sign, rest);
  }

  lemma ParseSignedNoNumber(sign: string, rest: string)
    requires IsSign(sign)
    requires rest == [] || !IsDigit(rest[0])
    requires sign == [] && rest != [] ==> !IsSpace(rest[0]) && rest[0] != '-' && rest[0] != '+'
    ensures TrimStart(sign + rest) == sign + rest
    ensures ParseSigned(sign + rest).None?
  {
    var t := sign + rest;
    if sign == [] {
      assert t == rest;
    } else {
      assert t[0] == sign[0] && t[1..] == rest;
    }
    assert Unsigned(t) == rest;
  }

  // ---------------------------------------------------------------------
  // Form state

  /** One `handleInputChange(field, value)` call; the budget input passes
      its text through `parseInt(…) || 0`. */
  datatype PlacementChange =
    | SetType(placementType: string)
    | SetTitle(title: string)
    | SetDescription(description: string)
    | SetImageUrl(imageUrl: string)
    | SetTargetUrl(targetUrl: string)
    | SetDuration(duration: int)
    | SetBudgetText(text: string)
    | SetPriority(priority: string)
    | SetTargetAudience(targetAudience: string)

  function ApplyChange(d: PlacementData, c: PlacementChange): PlacementData {
    match c
    case SetType(v) => d.(placementType := v)
    case SetTitle(v) => d.(title := v)
    case SetDescription(v) => d.(description := v)
    case SetImageUrl(v) => d.(imageUrl := v)
    case SetTargetUrl(v) => d.(targetUrl := v)
    case SetDuration(v) => d.(duration := v)
    case SetBudgetText(text) => d.(budget := ParseBudget(text))
    case SetPriority(v) => d.(priority := v)
    case SetTargetAudience(v) => d.(targetAudience := v)
  }

  /** A change sets its own field and no other. */
  lemma ChangeTouchesOneField(d: PlacementData, c: PlacementChange)
    ensures ApplyChange(d, c).placementType == if c.SetType? then c.placementType else d.placementType
    ensures ApplyChange(d, c).title == if c.SetTitle? then c.title else d.title
    ensures ApplyChange(d, c).description == if c.SetDescription? then c.description else d.description
    ensures ApplyChange(d, c).imageUrl == if c.SetImageUrl? then c.imageUrl else d.imageUrl
    ensures ApplyChange(d, c).targetUrl == if c.SetTargetUrl? then c.targetUrl else d.targetUrl
    ensures ApplyChange(d, c).duration == if c.SetDuration? then c.duration else d.duration
    ensures ApplyChange(d, c).budget == if c.SetBudgetText? then ParseBudget(c.text) else d.budget
    ensures ApplyChange(d, c).priority == if c.SetPriority? then c.priority else d.priority
    ensures ApplyChange(d, c).targetAudience ==
              if c.SetTargetAudience? then c.targetAudience else d.targetAudience
  {
  }

  /** Only the type and the duration are priced: the budget and every other
      field leave the cost as it was. */
  lemma BudgetNeverPriced(d: PlacementData, c: PlacementChange)
    requires !c.SetType? && !c.SetDuration?
    ensures TotalCost(ApplyChange(d, c)) == TotalCost(d)
  {
  }

  /** `canProceed`. */
  predicate CanProceed(step: int, d: PlacementData) {
    if step == 1 then d.placementType != ""
    else if step == 2 then Trim(d.title) != [] && Trim(d.description) != []
    else if step == 3 then d.duration > 0
    else step == 4
  }

  /** Step 1 needs a type, step 2 a title and a description that hold more
      than white space, step 3 a positive duration, step 4 nothing; no other
      step can proceed. */
  lemma CanProceedCorrect(step: int, d: PlacementData)
    ensures step == 1 ==> (CanProceed(step, d) <==> d.placementType != [])
    ensures step == 2 ==> (CanProceed(step, d) <==>
              (exists i :: 0 <= i < |d.title| && !IsSpace(d.title[i]))
              && (exists i :: 0 <= i < |d.description| && !IsSpace(d.description[i])))
    ensures step == 3 ==> (CanProceed(step, d) <==> d.duration > 0)
    ensures step == 4 ==> CanProceed(step, d)
    ensures !(1 <= step <= 4) ==> !CanProceed(step, d)
  {
    TrimNonEmptyIff(d.title);
    TrimNonEmptyIff(d.description);
  }

  /** The record passed to `onComplete`. */
  datatype Placement = Placement(data: PlacementData, totalCost: int, id: string, createdAt: string)

  class Wizard {
    var step: int
    var formData: PlacementData

    /** The step is 1 to 4, and the type and the duration are among the
        offered options (the only values their controls pass). */
    predicate Valid()
      reads this
    {
      1 <= step <= 4 && formData.placementType in TypeIds && formData.duration in Durations
    }

    constructor ()
      ensures Valid()
      ensures step == 1 && formData == InitialData
    {
      step := 1;
      formData := InitialData;
    }

    /** `handleInputChange`: the type buttons pass an offered id and the
        duration select an offered number of days. */
    method HandleInputChange(c: PlacementChange)
      requires Valid()
      requires c.SetType? ==> c.placementType in TypeIds
      requires c.SetDuration? ==> c.duration in Durations
      modifies this
      ensures Valid()
      ensures step == old(step) && formData == ApplyChange(old(formData), c)
    {
      formData := ApplyChange(formData, c);
    }

    /** The Next / Create Placement button: disabled when the step cannot
        proceed, advances before step 4, and at step 4 emits the placement
        with the cost the review step shows. */
    method Next(id: string, createdAt: string) returns (emitted: Option<Placement>)
      requires Valid()
      modifies this
      ensures Valid()
      ensures formData == old(formData)
      ensures !CanProceed(old(step), formData) ==> step == old(step) && emitted.None?
      ensures CanProceed(old(step), formData) && old(step) < 4 ==> step == old(step) + 1 && emitted.None?
      ensures old(step) == 4 ==> step == 4 && emitted == Some(Placement(formData, TotalCost(formData), id, createdAt))
      ensures emitted.Some? ==> 45000 <= emitted.value.totalCost <= 900000
    {
      emitted := None;
      if !CanProceed(step, formData) {
        return;
      }
      if step < 4 {
        step := step + 1;
      } else {
        OfferedCostRange(formData);
        emitted := Some(Placement(formData, TotalCost(formData), id, createdAt));
      }
    }

    /** The Back / Cancel button. */
    method Back() returns (cancelled: bool)
      requires Valid()
      modifies this
      ensures Valid()
      ensures formData == old(formData)
      ensures old(step) > 1 ==> step == old(step) - 1 && !cancelled
      ensures old(step) == 1 ==> step == 1 && cancelled
    {
      if step > 1 {
        step := step - 1;
        cancelled := false;
      } else {
        cancelled := true;
      }
    }
  }
}
