/** The landing page: where its buttons lead, the labels of the pricing cards and the targets
    of the statistics counters. */
module Home {
  import opened Wrappers
  import opened Seqs
  import opened Text
  import opened JsValues
  import opened AuthContext

  /** `handleGetStarted()`: notes for a signed-in user with a tenant, onboarding for one
      without, the sign-in page otherwise. */
  function GetStartedTarget(isAuthenticated: bool, tenant: Option<Tenant>): (r: string)
    ensures r == "/login" <==> !isAuthenticated
    ensures r == "/notes" <==> isAuthenticated && tenant.Some?
    ensures r == "/onboarding" <==> isAuthenticated && tenant.None?
  {
    if isAuthenticated then (if tenant.Some? then "/notes" else "/onboarding") else "/login"
  }

  /** The prefix of the sign-up location a plan choice leads to. */
  const SignupPrefix: string := "/signup?plan="

  /** `handlePlanSelect(key)`: the plan becomes the selected one, and the page navigates to
      billing when signed in, otherwise to sign-up with the lower-cased key. */
  datatype PlanChoice = PlanChoice(selected: string, route: string)

  function PlanSelect(isAuthenticated: bool, key: string): (c: PlanChoice)
    ensures c.selected == key
    ensures isAuthenticated ==> c.route == "/billing"
    ensures !isAuthenticated ==>
      |c.route| == |SignupPrefix| + |key| && c.route[..|SignupPrefix|] == SignupPrefix
      && forall i :: |SignupPrefix| <= i < |c.route| ==> !IsUpperAscii(c.route[i])
  {
    PlanChoice(key, if isAuthenticated then "/billing" else SignupPrefix + Lower(key))
  }

  /** The selection the page starts with. */
  const InitialPlan: string := "PROFESSIONAL"

  /** A key without lower-case letters, such as every plan key, can be read back from the
      sign-up location by upper-casing what follows the prefix. */
  lemma SignupKeyRoundTrip(key: string)
    requires forall i :: 0 <= i < |key| ==> !('a' <= key[i] <= 'z')
    ensures var r := PlanSelect(false, key).route;
      Upper(r[|SignupPrefix|..]) == key
  {
    var r := PlanSelect(false, key).route;
    assert r[|SignupPrefix|..] == Lower(key);
  }

  /** The feature value label: ✓ or ✗ for a flag, `Unlimited` for the number -1, the value
      itself otherwise (a text `"-1"` is not the number -1). */
  function FeatureValueLabel(v: FeatureValue): (r: string)
    ensures v.FBool? ==> (r == "✓" <==> v.b) && (r == "✗" <==> !v.b)
    ensures v.FNum? ==> (r == "Unlimited" <==> v.n == -1)
    ensures v.FNum? && v.n != -1 ==> r == IntToDecimal(v.n)
    ensures v.FText? ==> r == v.s
  {
    match v
    case FBool(b) => if b then "✓" else "✗"
    case FNum(n) =>
      if n == -1 then "Unlimited"
      else
        assert !IsDigit("Unlimited"[0]) && "Unlimited"[0] != '-';
        IntToDecimal(n)
    case FText(s) => s
  }

  /** `replace(/([A-Z])/g, ' $1')`: a space before every upper-case letter. */
  function SpaceBeforeUpper(s: string): string
    decreases |s|
  {
    if s == [] then [] else Spaced(s[0]) + SpaceBeforeUpper(s[1..])
  }

  /** One character of the key, spaced. */
  function Spaced(c: char): string {
    if IsUpperAscii(c) then [' ', c] else [c]
  }

  /** The spaced key is one character longer per capital. */
  lemma {:induction false} SpacedLength(s: string)
    ensures |SpaceBeforeUpper(s)| == |s| + Count(s, IsUpperAscii)
    decreases |s|
  {
    if s != [] {
      SpacedLength(s[1..]);
      CountCons(s[0], s[1..], IsUpperAscii);
      assert [s[0]] + s[1..] == s;
    }
  }

  predicate NotSpace(c: char) {
    c != ' '
  }

  /** Dropping the spaces of the spaced key gives back the key, when it had none. */
  lemma {:induction false} SpacingRemovable(s: string)
    requires forall i :: 0 <= i < |s| ==> s[i] != ' '
    ensures Filter(SpaceBeforeUpper(s), NotSpace) == s
    decreases |s|
  {
    if s != [] {
      SpacingRemovable(s[1..]);
      FilterAppend(Spaced(s[0]), SpaceBeforeUpper(s[1..]), NotSpace);
      SpacedUnspaced(s[0]);
      assert [s[0]] + s[1..] == s;
    }
  }

  /** Dropping the space of one spaced character gives the character back. */
  lemma SpacedUnspaced(c: char)
    requires c != ' '
    ensures Filter(Spaced(c), NotSpace) == [c]
  {
    FilterSingleton(c, NotSpace);
    if IsUpperAscii(c) {
      assert Spaced(c) == [' '] + [c];
      FilterAppend([' '], [c], NotSpace);
      FilterSingleton(' ', NotSpace);
    }
  }

  /** `replace(/^./, c => c.toUpperCase())`: the first character upper-cased, unless it is a
      line terminator, which `.` does not match. */
  function CapitaliseFirst(s: string): (r: string)
    ensures |r| == |s|
    ensures s != [] && !IsLineTerminator(s[0]) ==> r[0] == UpperChar(s[0])
    ensures forall i :: 0 <= i < |s| && !(i == 0 && !IsLineTerminator(s[0])) ==> r[i] == s[i]
  {
    if s == [] || IsLineTerminator(s[0]) then s else [UpperChar(s[0])] + s[1..]
  }

  predicate IsLineTerminator(c: char) {
    c == '\n' || c == '\r' || c == '\U{2028}' || c == '\U{2029}'
  }

  /** The feature key label. */
  function FeatureKeyLabel(key: string): (r: string)
    ensures |r| == |key| + Count(key, IsUpperAscii)
  {
    SpacedLength(key);
    CapitaliseFirst(SpaceBeforeUpper(key))
  }

  /** A camel-case key of two words, a lower-case word then a word starting with a capital,
      reads as the two words with capitals, separated by a space: `maxUsers` is `Max Users`. */
  lemma TwoWordLabel(a: string, b: string)
    requires |a| >= 1 && 'a' <= a[0] <= 'z'
    requires |b| >= 1 && IsUpperAscii(b[0])
    requires forall i :: 0 <= i < |a| ==> !IsUpperAscii(a[i])
    requires forall i :: 1 <= i < |b| ==> !IsUpperAscii(b[i])
    ensures FeatureKeyLabel(a + b) == [UpperChar(a[0])] + a[1..] + " " + b
  {
    var t := a + " " + b;
    SpacedTwoWords(a, b);
    assert t[0] == a[0] && !IsLineTerminator(a[0]);
    assert t[1..] == a[1..] + " " + b;
  }

  /** The spacing step alone on such a key. */
  lemma SpacedTwoWords(a: string, b: string)
    requires |b| >= 1 && IsUpperAscii(b[0])
    requires forall i :: 0 <= i < |a| ==> !IsUpperAscii(a[i])
    requires forall i :: 1 <= i < |b| ==> !IsUpperAscii(b[i])
    ensures SpaceBeforeUpper(a + b) == a + " " + b
  {
    SpaceBeforeUpperAppend(a, b);
    NoUpperUnspaced(a);
    CapitalWordSpaced(b);
    assert a + (" " + b) == a + " " + b;
  }

  /** A word that starts with its only capital gets one space in front. */
  lemma CapitalWordSpaced(b: string)
    requires |b| >= 1 && IsUpperAscii(b[0])
    requires forall i :: 1 <= i < |b| ==> !IsUpperAscii(b[i])
    ensures SpaceBeforeUpper(b) == " " + b
  {
    TailUnspaced(b);
    assert SpaceBeforeUpper(b) == Spaced(b[0]) + SpaceBeforeUpper(b[1..]);
    assert [' ', b[0]] + b[1..] == " " + b;
  }

  /** The rest of such a word is left as it is. */
  lemma TailUnspaced(b: string)
    requires |b| >= 1
    requires forall i :: 1 <= i < |b| ==> !IsUpperAscii(b[i])
    ensures SpaceBeforeUpper(b[1..]) == b[1..]
  {
    var r := b[1..];
    forall i | 0 <= i < |r| ensures !IsUpperAscii(r[i]) {
      assert r[i] == b[i + 1];
    }
    NoUpperUnspaced(r);
  }

  /** A text without capitals is left as it is. */
  lemma {:induction false} NoUpperUnspaced(s: string)
    requires forall i :: 0 <= i < |s| ==> !IsUpperAscii(s[i])
    ensures SpaceBeforeUpper(s) == s
    decreases |s|
  {
    if s != [] {
      NoUpperUnspaced(s[1..]);
      assert [s[0]] + s[1..] == s;
    }
  }

  /** Spacing works piece by piece. */
  lemma {:induction false} SpaceBeforeUpperAppend(a: string, b: string)
    ensures SpaceBeforeUpper(a + b) == SpaceBeforeUpper(a) + SpaceBeforeUpper(b)
    decreases |a|
  {
    if a == [] {
      assert a + b == b;
    } else {
      assert (a + b)[0] == a[0];
      assert (a + b)[1..] == a[1..] + b;
      SpaceBeforeUpperAppend(a[1..], b);
    }
  }

  /** The button of a card reads `Start Free` at price 0 and `Start Trial` otherwise. */
  function ButtonLabel(price: int): (r: string)
    ensures r == "Start Free" <==> price == 0
    ensures r == "Start Trial" <==> price != 0
  {
    if price == 0 then "Start Free" else "Start Trial"
  }

  /** The highlighted card is the one for the key `PROFESSIONAL`. */
  predicate IsPopular(key: string) {
    key == "PROFESSIONAL"
  }

  /** One pricing card as drawn. */
  datatype Card = Card(key: string, name: string, price: int, interval: string,
                       rows: seq<(string, string)>, popular: bool, button: string)

  /** Every plan key names a plan, and every plan's features hold every feature key. */
  lemma PlanTableShape()
    ensures forall k :: k in PlanKeys <==> k in SubscriptionPlans
    ensures forall k, f :: k in PlanKeys && f in FeatureKeys ==> f in SubscriptionPlans[k].features
  {
  }

  /** The card for plan `key`: one row per feature key, labelled and valued. */
  function CardFor(key: string): (c: Card)
    requires key in SubscriptionPlans
    requires forall f :: f in FeatureKeys ==> f in SubscriptionPlans[key].features
    ensures |c.rows| == |FeatureKeys|
    ensures forall i :: 0 <= i < |FeatureKeys| ==> c.rows[i].0 == FeatureKeyLabel(FeatureKeys[i])
    ensures forall i :: 0 <= i < |FeatureKeys| ==>
      c.rows[i].1 == FeatureValueLabel(SubscriptionPlans[key].features[FeatureKeys[i]])
    ensures c.popular <==> key == "PROFESSIONAL"
    ensures c.button == "Start Free" <==> SubscriptionPlans[key].price == 0
  {
    var p := SubscriptionPlans[key];
    Card(key, p.name, p.price, p.interval,
      seq(|FeatureKeys|, i requires 0 <= i < |FeatureKeys| =>
        (FeatureKeyLabel(FeatureKeys[i]), FeatureValueLabel(p.features[FeatureKeys[i]]))),
      IsPopular(key), ButtonLabel(p.price))
  }

  /** The cards in the order the plans are written. */
  function Cards(): (r: seq<Card>)
    ensures |r| == |PlanKeys| && forall i :: 0 <= i < |r| ==> r[i].key == PlanKeys[i]
  {
    PlanTableShape();
    seq(|PlanKeys|, i requires 0 <= i < |PlanKeys| => CardFor(PlanKeys[i]))
  }

  /** Exactly one card, the second, is highlighted. */
  lemma OnePopularCard(i: nat)
    requires i < |Cards()|
    ensures Cards()[i].popular <==> i == 1
  {
    PlanTableShape();
  }

  /** Only the first card, at price 0, is free. */
  lemma OneFreeCard(i: nat)
    requires i < |Cards()|
    ensures Cards()[i].button == "Start Free" <==> i == 0
  {
    PlanTableShape();
  }

  /** The counter's target, `parseInt` of the value's digits: `NaN` when there are none. */
  function StatTarget(value: string): (r: Num)
    ensures r.NaN? <==> Count(value, IsDigit) == 0
    ensures r.Fin? ==> r.v >= 0
  {
    var digits := Filter(value, IsDigit);
    if digits == [] then NaN else Fin(DigitsValue(digits))
  }

  /** The counter shows a `+` after the number exactly when the value contains one. */
  predicate ShowsPlus(value: string) {
    '+' in value
  }

  /** A numeral followed by a text without digits counts up to the numeral's number. */
  lemma StatTargetOfNumeral(n: nat, suffix: string)
    requires forall i :: 0 <= i < |suffix| ==> !IsDigit(suffix[i])
    ensures StatTarget(NatToDecimal(n) + suffix) == Fin(n)
  {
    DigitsOnly(NatToDecimal(n) + suffix, NatToDecimal(n), suffix);
    DigitsValueOfDecimal(n);
  }

  /** The digits of a numeral and a text without digits are the numeral. */
  lemma DigitsOnly(s: string, a: string, b: string)
    requires s == a + b
    requires forall i :: 0 <= i < |a| ==> IsDigit(a[i])
    requires forall i :: 0 <= i < |b| ==> !IsDigit(b[i])
    ensures Filter(s, IsDigit) == a
  {
    FilterAppend(a, b, IsDigit);
    FilterKeepsAll(a, IsDigit);
    NoneKept(b, IsDigit);
  }

  /** A numeral written in two groups with a separator, then a text without digits, counts
      up to the number the two groups spell. */
  lemma GroupedNumeral(a: string, sep: char, b: string, suffix: string)
    requires forall i :: 0 <= i < |a| ==> IsDigit(a[i])
    requires forall i :: 0 <= i < |b| ==> IsDigit(b[i])
    requires !IsDigit(sep)
    requires forall i :: 0 <= i < |suffix| ==> !IsDigit(suffix[i])
    ensures Filter(a + [sep] + b + suffix, IsDigit) == a + b
  {
    var ab := a + [sep] + b;
    assert Filter(ab + suffix, IsDigit) == Filter(ab, IsDigit) by {
      FilterAppend(ab, suffix, IsDigit);
      NoneKept(suffix, IsDigit);
      assert Filter(ab, IsDigit) + [] == Filter(ab, IsDigit);
    }
    assert Filter(ab, IsDigit) == Filter(a + [sep], IsDigit) + b by {
      FilterAppend(a + [sep], b, IsDigit);
      FilterKeepsAll(b, IsDigit);
    }
    assert Filter(a + [sep], IsDigit) == a by {
      FilterAppend(a, [sep], IsDigit);
      FilterKeepsAll(a, IsDigit);
      FilterSingleton(sep, IsDigit);
      assert a + [] == a;
    }
  }

  /** One more digit at the end multiplies the value by ten and adds the digit. */
  lemma DigitsValueSnoc(s: string, d: char)
    requires forall i :: 0 <= i < |s| ==> IsDigit(s[i])
    requires IsDigit(d)
    ensures DigitsValue(s + [d]) == DigitsValue(s) * 10 + (d as int - '0' as int)
  {
    assert (s + [d])[..|s|] == s;
  }

  /** Separators between digit groups are dropped: `2,500+` counts to 2500. */
  lemma OrganisationsTarget()
    ensures StatTarget("2,500+") == Fin(2500)
    ensures ShowsPlus("2,500+")
  {
    assert "2,500+"[5] == '+';
    OrganisationsDigits();
    OrganisationsValue();
  }

  lemma OrganisationsDigits()
    ensures Filter("2,500+", IsDigit) == "2500"
  {
    assert "2,500+" == "2" + [','] + "500" + "+";
    GroupedNumeral("2", ',', "500", "+");
    assert "2" + "500" == "2500";
  }

  lemma OrganisationsValue()
    ensures DigitsValue("2500") == 2500
  {
    DigitsValueSnoc("", '2');
    assert "" + ['2'] == "2";
    DigitsValueSnoc("2", '5');
    assert "2" + ['5'] == "25";
    DigitsValueSnoc("25", '0');
    assert "25" + ['0'] == "250";
    DigitsValueSnoc("250", '0');
    assert "250" + ['0'] == "2500";
  }

  /** A decimal point is dropped as well: `99.9%` counts to 999. */
  lemma UptimeTarget()
    ensures StatTarget("99.9%") == Fin(999)
  {
    UptimeDigits();
    UptimeValue();
  }

  lemma UptimeDigits()
    ensures Filter("99.9%", IsDigit) == "999"
  {
    assert "99.9%" == "99" + ['.'] + "9" + "%";
    GroupedNumeral("99", '.', "9", "%");
    assert "99" + "9" == "999";
  }

  lemma UptimeValue()
    ensures DigitsValue("999") == 999
  {
    DigitsValueSnoc("", '9');
    assert "" + ['9'] == "9";
    DigitsValueSnoc("9", '9');
    assert "9" + ['9'] == "99";
    DigitsValueSnoc("99", '9');
    assert "99" + ['9'] == "999";
  }

  /** A unit letter ends the number: `5M+` counts to 5. */
  lemma NotesTarget()
    ensures StatTarget("5M+") == Fin(5)
  {
    assert "5M+" == NatToDecimal(5) + "M+";
    StatTargetOfNumeral(5, "M+");
  }
}
