/** The donation modal: pick fixed-price resources or type a custom amount,
    see the total, complete (a simulated payment) or close. */
module DonationModal {
  import opened Common

  datatype Mode = Specific | Custom

  /** A fixed-price resource; prices are whole dollars. */
  datatype Resource = Resource(id: string, price: int)

  const Resources: seq<Resource> := [
    Resource("drone", 90),
    Resource("fuel", 360),
    Resource("food", 500),
    Resource("satellite", 520),
    Resource("sensor", 380)
  ]

  predicate NoDuplicates(s: seq<string>)
  {
    forall i, j :: 0 <= i < j < |s| ==> s[i] != s[j]
  }

  /** `selectedItems.filter(itemId => itemId !== id)`. The order of the
      selection is never observed (it is only searched with `includes`), so
      the contract speaks of membership; `ToggleTwiceRestores` covers the
      one place where the exact list matters. */
  function Without(s: seq<string>, id: string): (r: seq<string>)
    ensures forall x :: x in r <==> x in s && x != id
    ensures |r| <= |s|
    ensures NoDuplicates(s) ==> NoDuplicates(r)
  {
    if s == [] then []
    else if s[0] == id then Without(s[1..], id)
    else
      var rest := Without(s[1..], id);
      assert forall x :: x in s[1..] ==> x in s;
      assert NoDuplicates(s) ==> s[0] !in s[1..] && NoDuplicates(s[1..]);
      [s[0]] + rest
  }

  /** Removing an id that is not there leaves the list as it was. */
  lemma {:induction false} WithoutAbsent(s: seq<string>, id: string)
    requires id !in s
    ensures Without(s, id) == s
  {
    if s != [] {
      assert id !in s[1..];
      WithoutAbsent(s[1..], id);
      assert [s[0]] + s[1..] == s;
    }
  }

  /** The selection after clicking resource `id`: deselect it if selected,
      otherwise append it. */
  function Toggled(selected: seq<string>, id: string): (r: seq<string>)
    ensures id in r <==> id !in selected
    ensures forall x :: x != id ==> (x in r <==> x in selected)
    ensures NoDuplicates(selected) ==> NoDuplicates(r)
  {
    if id in selected then Without(selected, id) else selected + [id]
  }

  /** Clicking an unselected resource twice restores the selection. */
  lemma ToggleTwiceRestores(selected: seq<string>, id: string)
    requires id !in selected
    ensures Toggled(Toggled(selected, id), id) == selected
  {
    WithoutAbsent(selected, id);
    assert Without(selected + [id], id) == Without(selected, id) by {
      WithoutAppend(selected, id);
    }
  }

  lemma {:induction false} WithoutAppend(s: seq<string>, id: string)
    ensures Without(s + [id], id) == Without(s, id)
  {
    if s == [] {
      assert [id][1..] == [];
    } else {
      assert (s + [id])[1..] == s[1..] + [id];
      WithoutAppend(s[1..], id);
    }
  }

  /** `resources.filter(r => selectedItems.includes(r.id)).reduce((sum, r) => sum + r.price, 0)`. */
  function SelectedPrice(resources: seq<Resource>, selected: seq<string>): (t: int)
    ensures (forall r :: r in resources ==> r.price >= 0) ==> t >= 0
    ensures (forall r :: r in resources ==> r.id !in selected) ==> t == 0
  {
    if resources == [] then 0
    else
      assert forall r :: r in resources[1..] ==> r in resources;
      (if resources[0].id in selected then resources[0].price else 0) + SelectedPrice(resources[1..], selected)
  }

  /** The total depends only on which ids are selected, not on their order
      or on repeats. */
  lemma {:induction false} SelectedPriceBySet(resources: seq<Resource>, a: seq<string>, b: seq<string>)
    requires forall x :: x in a <==> x in b
    ensures SelectedPrice(resources, a) == SelectedPrice(resources, b)
  {
    if resources != [] {
      SelectedPriceBySet(resources[1..], a, b);
    }
  }

  /** Selecting one more resource raises the total by exactly its price. */
  lemma {:induction false} SelectingAddsPrice(resources: seq<Resource>, selected: seq<string>, r: Resource)
    requires r.id !in selected
    requires forall i, j :: 0 <= i < j < |resources| ==> resources[i].id != resources[j].id
    requires r in resources
    ensures SelectedPrice(resources, selected + [r.id]) == SelectedPrice(resources, selected) + r.price
  {
    if resources[0] == r {
      assert forall q :: q in resources[1..] ==> q.id != r.id by {
        forall q | q in resources[1..]
          ensures q.id != r.id
        {
          var k :| 0 <= k < |resources[1..]| && resources[1..][k] == q;
          assert resources[k + 1] == q;
        }
      }
      SelectedPriceOthers(resources[1..], selected, r.id);
    } else {
      assert r in resources[1..];
      var rest := resources[1..];
      assert forall i, j :: 0 <= i < j < |rest| ==> rest[i].id != rest[j].id by {
        forall i, j | 0 <= i < j < |rest|
          ensures rest[i].id != rest[j].id
        {
          assert rest[i] == resources[i + 1] && rest[j] == resources[j + 1];
        }
      }
      assert resources[0].id != r.id by {
        var k :| 0 <= k < |resources| && resources[k] == r;
        assert k != 0;
      }
      SelectingAddsPrice(rest, selected, r);
    }
  }

  /** Adding an id no resource in the list carries changes nothing. */
  lemma {:induction false} SelectedPriceOthers(resources: seq<Resource>, selected: seq<string>, id: string)
    requires forall q :: q in resources ==> q.id != id
    ensures SelectedPrice(resources, selected + [id]) == SelectedPrice(resources, selected)
  {
    if resources != [] {
      assert resources[0] in resources;
      assert forall q :: q in resources[1..] ==> q in resources;
      SelectedPriceOthers(resources[1..], selected, id);
    }
  }

  function IsDigit(c: char): bool
  {
    '0' <= c <= '9'
  }

  /** `value.replace(/[^0-9.]/g, '')`: keep digits and dots, in order. */
  function Sanitize(s: string): (r: string)
    ensures |r| <= |s|
    ensures forall c :: c in r <==> c in s && (IsDigit(c) || c == '.')
    ensures |s| == 1 ==> r == (if IsDigit(s[0]) || s[0] == '.' then s else "")
  {
    if s == [] then ""
    else
      assert forall c :: c in s <==> c == s[0] || c in s[1..];
      (if IsDigit(s[0]) || s[0] == '.' then [s[0]] else "") + Sanitize(s[1..])
  }

  /** A string that is already clean is left unchanged, so sanitising twice
      is the same as sanitising once. */
  lemma {:induction false} SanitizeClean(s: string)
    requires forall c :: c in s ==> IsDigit(c) || c == '.'
    ensures Sanitize(s) == s
  {
    if s != [] {
      assert forall c :: c in s[1..] ==> c in s;
      assert s[0] in s;
      SanitizeClean(s[1..]);
      assert [s[0]] + s[1..] == s;
    }
  }

  /** The filter works character by character and keeps the order: the
      clean text of a concatenation is the concatenation of the clean texts.
      With the one-character case of `Sanitize` this fixes the result. */
  lemma {:induction false} SanitizeConcat(a: string, b: string)
    ensures Sanitize(a + b) == Sanitize(a) + Sanitize(b)
  {
    if a == [] {
      assert a + b == b;
    } else {
      assert (a + b)[1..] == a[1..] + b;
      SanitizeConcat(a[1..], b);
    }
  }

  /** Letters between digits are dropped in place: "1a2" becomes "12". */
  lemma SanitizeKeepsOrder()
    ensures Sanitize("1a2") == "12"
  {
    SanitizeConcat("1", "a2");
    SanitizeConcat("a", "2");
    assert "1a2" == "1" + "a2" && "a2" == "a" + "2";
  }

  lemma SanitizeIdempotent(s: string)
    ensures Sanitize(Sanitize(s)) == Sanitize(s)
  {
    SanitizeClean(Sanitize(s));
  }

  /** The length of the run of digits `s` starts with. */
  function DigitRun(s: string): (n: nat)
    ensures n <= |s|
    ensures forall i :: 0 <= i < n ==> IsDigit(s[i])
    ensures n < |s| ==> !IsDigit(s[n])
  {
    if s == [] || !IsDigit(s[0]) then 0 else 1 + DigitRun(s[1..])
  }

  /** The decimal value of a string of digits. */
  function DigitsValue(s: string): nat
    requires forall i :: 0 <= i < |s| ==> IsDigit(s[i])
  {
    if s == [] then 0
    else
      assert IsDigit(s[|s| - 1]);
      10 * DigitsValue(s[..|s| - 1]) + (s[|s| - 1] as int - '0' as int)
  }

  function Pow10(n: nat): (p: nat)
    ensures p >= 1
  {
    if n == 0 then 1 else 10 * Pow10(n - 1)
  }

  /** `parseFloat` on text with no sign, exponent or leading space: the
      longest prefix of the form digits, optionally `.` and more digits, with
      at least one digit; `None` is `NaN`. The value is exact. */
  function ParseFloat(s: string): (v: Option<real>)
    ensures v.Some? ==> v.value >= 0.0
    ensures v.None? <==> DigitRun(s) == 0 && (s == [] || s[0] != '.' || DigitRun(s[1..]) == 0)
  {
    var whole := DigitRun(s);
    var afterDot := if whole < |s| && s[whole] == '.' then DigitRun(s[whole + 1..]) else 0;
    if whole == 0 && afterDot == 0 then None
    else
      var intPart := DigitsValue(s[..whole]) as real;
      var fraction := if afterDot == 0 then 0.0
        else DigitsValue(s[whole + 1..whole + 1 + afterDot]) as real / Pow10(afterDot) as real;
      Some(intPart + fraction)
  }

  /** A plain string of digits parses to its integer value. */
  lemma ParseWholeNumber(s: string)
    requires s != [] && forall i :: 0 <= i < |s| ==> IsDigit(s[i])
    ensures ParseFloat(s) == Some(DigitsValue(s) as real)
  {
    assert DigitRun(s) == |s| by {
      DigitRunAll(s);
    }
    assert s[..|s|] == s;
  }

  lemma {:induction false} DigitRunAll(s: string)
    requires forall i :: 0 <= i < |s| ==> IsDigit(s[i])
    ensures DigitRun(s) == |s|
  {
    if s != [] {
      DigitRunAll(s[1..]);
    }
  }

  /** `parseFloat(customAmount)`, with `NaN` and negatives read as 0. */
  function CustomTotal(customAmount: string): (t: real)
    ensures t >= 0.0
    ensures ParseFloat(customAmount).Some? ==> t == ParseFloat(customAmount).value
    ensures ParseFloat(customAmount).None? ==> t == 0.0
  {
    match ParseFloat(customAmount)
    case None => 0.0
    case Some(v) => if v < 0.0 then 0.0 else v
  }

  /** The memoised `totalAmount`. */
  function TotalAmount(mode: Mode, selected: seq<string>, customAmount: string): (t: real)
    ensures t >= 0.0
    ensures mode == Specific ==> t == SelectedPrice(Resources, selected) as real
    ensures mode == Custom ==> t == CustomTotal(customAmount)
  {
    if mode == Custom then CustomTotal(customAmount) else SelectedPrice(Resources, selected) as real
  }

  class Modal {
    var mode: Mode
    var selectedItems: seq<string>
    var customAmount: string
    var isProcessing: bool
    var isSuccess: bool

    /** The selection never repeats an id and the custom amount only ever
        holds digits and dots. */
    ghost predicate Valid()
      reads this
    {
      NoDuplicates(selectedItems) && forall c :: c in customAmount ==> IsDigit(c) || c == '.'
    }

    constructor ()
      ensures Valid()
      ensures mode == Specific && selectedItems == [] && customAmount == ""
      ensures !isProcessing && !isSuccess
    {
      mode, selectedItems, customAmount := Specific, [], "";
      isProcessing, isSuccess := false, false;
    }

    function Total(): real
      reads this
    {
      TotalAmount(mode, selectedItems, customAmount)
    }

    /** The Complete Donation button is disabled. */
    function CompleteDisabled(): (disabled: bool)
      reads this
      ensures disabled <==> isProcessing || Total() <= 0.0
    {
      isProcessing || Total() <= 0.0
    }

    /** `toggleItem`: ignored once the donation has succeeded. */
    method ToggleItem(id: string)
      requires Valid()
      modifies this
      ensures Valid()
      ensures old(isSuccess) ==> selectedItems == old(selectedItems)
      ensures !old(isSuccess) ==> selectedItems == Toggled(old(selectedItems), id)
      ensures mode == old(mode) && customAmount == old(customAmount)
      ensures isProcessing == old(isProcessing) && isSuccess == old(isSuccess)
    {
      if isSuccess {
        return;
      }
      selectedItems := Toggled(selectedItems, id);
    }

    /** `handleCustomInputChange`: ignored once the donation has succeeded. */
    method CustomInputChange(value: string)
      requires Valid()
      modifies this
      ensures Valid()
      ensures old(isSuccess) ==> customAmount == old(customAmount)
      ensures !old(isSuccess) ==> customAmount == Sanitize(value)
      ensures mode == old(mode) && selectedItems == old(selectedItems)
      ensures isProcessing == old(isProcessing) && isSuccess == old(isSuccess)
    {
      if isSuccess {
        return;
      }
      customAmount := Sanitize(value);
    }

    /** The two tab buttons. */
    method SelectMode(m: Mode)
      requires Valid()
      modifies this
      ensures Valid()
      ensures mode == m && selectedItems == old(selectedItems) && customAmount == old(customAmount)
      ensures isProcessing == old(isProcessing) && isSuccess == old(isSuccess)
    {
      mode := m;
    }

    /** `handleClose`: back to an empty form; `isProcessing` is not reset. */
    method HandleClose()
      modifies this
      ensures Valid()
      ensures mode == Specific && selectedItems == [] && customAmount == "" && !isSuccess
      ensures isProcessing == old(isProcessing)
      ensures Total() == 0.0
    {
      mode, selectedItems, customAmount, isSuccess := Specific, [], "", false;
    }

    /** `handleCompleteDonation`: starts processing iff the total is positive. */
    method HandleCompleteDonation()
      requires Valid()
      modifies this
      ensures Valid()
      ensures isProcessing == (old(isProcessing) || old(Total()) > 0.0)
      ensures mode == old(mode) && selectedItems == old(selectedItems) && customAmount == old(customAmount)
      ensures isSuccess == old(isSuccess)
    {
      if Total() <= 0.0 {
        return;
      }
      isProcessing := true;
    }

    /** The timer set by `handleCompleteDonation` firing. */
    method FinishProcessing()
      requires Valid()
      modifies this
      ensures Valid()
      ensures !isProcessing && isSuccess
      ensures mode == old(mode) && selectedItems == old(selectedItems) && customAmount == old(customAmount)
    {
      isProcessing, isSuccess := false, true;
    }
  }

  /** `parseFloat` stops at the second dot. */
  lemma SecondDotEndsNumber()
    ensures ParseFloat("1.2.3") == Some(1.2)
  {
    assert DigitRun("1.2.3") == 1;
    assert DigitRun("2.3") == 1;
    assert "1.2.3"[..1] == "1";
    assert "1.2.3"[2..3] == "2";
  }

  /** A worked example that pins the price table: selecting every resource
      totals 90 + 360 + 500 + 520 + 380. */
  lemma AllResourcesTotal()
    ensures SelectedPrice(Resources, ["drone", "fuel", "food", "satellite", "sensor"]) == 1850
  {
  }
}
