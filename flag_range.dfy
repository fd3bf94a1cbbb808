/**
 * Allowed values of the backend flags (`getTunableRange`) and the
 * string-to-value recovery map a dropdown needs (`stringValueMap`).
 */
module FlagRange {
  import opened Params

  /** JavaScript's numeric coercion of a flag value, in quarters (`true` is 1, `false` is 0). */
  function AsQuarters(v: FlagValue): int {
    match v
    case B(b) => if b then Q else 0
    case N(q) => q
  }

  /** How many whole numbers k with 1 <= k hold k <= limit (limit in quarters). */
  function VersionCount(limit: int): nat {
    if limit < Q then 0 else limit / Q
  }

  /** 1, 2, ..., up to the default: the WEBGL_VERSION range. */
  function VersionRange(limit: int): seq<FlagValue> {
    seq(VersionCount(limit), i => N((i + 1) * Q))
  }

  /** -1 followed by 0 to 2 in steps of 0.25: the WEBGL_FLUSH_THRESHOLD range. */
  function FlushRange(): seq<FlagValue> {
    [N(-Q)] + seq(2 * Q + 1, i => N(i))
  }

  /**
   * The values a flag may be tuned to, judged from its default: special cases
   * first, then booleans (only downwards), then the table, then the default alone.
   */
  function TunableRange(flag: Flag, default: FlagValue): seq<FlagValue> {
    if flag == WebglForceF16Textures then [B(false), B(true)]
    else if flag == WebglVersion then VersionRange(AsQuarters(default))
    else if flag == WebglFlushThreshold then FlushRange()
    else if default.B? then (if default.b then [B(false), B(true)] else [B(false)])
    else if flag in TUNABLE_FLAG_VALUE_RANGE_MAP then TUNABLE_FLAG_VALUE_RANGE_MAP[flag]
    else [default]
  }

  /** A flag is offered to the user only with at least two values to choose from. */
  predicate IsTunable(range: seq<FlagValue>) {
    |range| >= 2
  }

  /** A tunable range whose first value is not boolean is shown as a dropdown. */
  predicate IsDropdown(range: seq<FlagValue>) {
    IsTunable(range) && !range[0].B?
  }

  /** Builds the range the way the source does, with push loops. */
  method GetTunableRange(flag: Flag, default: FlagValue) returns (range: seq<FlagValue>)
    ensures range == TunableRange(flag, default)
  {
    if flag == WebglForceF16Textures {
      range := [B(false), B(true)];
    } else if flag == WebglVersion {
      var limit := AsQuarters(default);
      range := [];
      var value := Q;
      while value <= limit
        invariant value == (|range| + 1) * Q
        invariant |range| * Q <= limit || range == []
        invariant forall i :: 0 <= i < |range| ==> range[i] == N((i + 1) * Q)
      {
        range := range + [N(value)];
        value := value + Q;
      }
    } else if flag == WebglFlushThreshold {
      range := [N(-Q)];
      var value := 0;
      while value <= 2 * Q
        invariant 0 <= value <= 2 * Q + 1
        invariant range == [N(-Q)] + seq(value, i => N(i))
      {
        range := range + [N(value)];
        value := value + 1;
      }
    } else if default.B? {
      range := if default.b then [B(false), B(true)] else [B(false)];
    } else if flag in TUNABLE_FLAG_VALUE_RANGE_MAP {
      range := TUNABLE_FLAG_VALUE_RANGE_MAP[flag];
    } else {
      range := [default];
    }
  }

  /** A boolean flag without a special case keeps its best value on top. */
  lemma BooleanRange(flag: Flag, b: bool)
    requires flag !in {WebglForceF16Textures, WebglVersion, WebglFlushThreshold}
    ensures b ==> TunableRange(flag, B(b)) == [B(false), B(true)] && IsTunable(TunableRange(flag, B(b)))
    ensures !b ==> TunableRange(flag, B(b)) == [B(false)] && !IsTunable(TunableRange(flag, B(b)))
  {
  }

  /**
   * A number flag without a special case or table entry is stuck at its default.
   * The only such flag is PROD, which no backend lists.
   */
  lemma UnlistedNumberIsUntunable(flag: Flag, q: int)
    requires flag !in {WebglForceF16Textures, WebglVersion, WebglFlushThreshold}
    requires flag !in TUNABLE_FLAG_VALUE_RANGE_MAP
    ensures flag == Prod
    ensures TunableRange(flag, N(q)) == [N(q)]
    ensures !IsTunable(TunableRange(flag, N(q)))
  {
  }

  /** A number flag that reaches the table is always tunable. */
  lemma TableNumberIsTunable(flag: Flag, q: int)
    requires flag !in {WebglForceF16Textures, WebglVersion, WebglFlushThreshold}
    requires flag in TUNABLE_FLAG_VALUE_RANGE_MAP
    ensures IsTunable(TunableRange(flag, N(q)))
  {
    TableRangesAreTunable();
  }

  /** WEBGL_VERSION offers exactly 1, 2, ..., default, ascending; nothing below 1. */
  lemma VersionRangeIsOneToDefault(default: FlagValue)
    ensures var r := TunableRange(WebglVersion, default);
      && (forall i :: 0 <= i < |r| ==> r[i] == N((i + 1) * Q))
      && (forall k :: 1 <= k && k * Q <= AsQuarters(default) ==> N(k * Q) in r)
      && (forall v :: v in r ==> v.N? && Q <= v.q <= AsQuarters(default))
      && (AsQuarters(default) < Q <==> r == [])
  {
    var r := TunableRange(WebglVersion, default);
    var limit := AsQuarters(default);
    forall k | 1 <= k && k * Q <= limit ensures N(k * Q) in r {
      assert k - 1 < VersionCount(limit);
      assert r[k - 1] == N(k * Q);
    }
  }

  /** WEBGL_FLUSH_THRESHOLD offers ten strictly increasing values, from -1 to 2. */
  lemma FlushRangeShape(default: FlagValue)
    ensures var r := TunableRange(WebglFlushThreshold, default);
      && |r| == 10
      && (forall i :: 0 <= i < |r| ==> r[i].N?)
      && (forall i, j :: 0 <= i < j < |r| ==> r[i].q < r[j].q)
      && r[0] == N(-Q) && r[9] == N(2 * Q)
  {
  }

  /** The loop-built flush range is the table's entry for the same flag. */
  lemma FlushRangeIsTableEntry(default: FlagValue)
    ensures TunableRange(WebglFlushThreshold, default) == TUNABLE_FLAG_VALUE_RANGE_MAP[WebglFlushThreshold]
  {
    var r := FlushRange();
    assert r == [N(-Q), N(0), N(1), N(2), N(3), N(4), N(5), N(6), N(7), N(8)];
  }

  // ---- String(v), as dat.GUI shows a dropdown value ----

  function DigitChar(d: nat): char
    requires d < 10
  {
    "0123456789"[d]
  }

  predicate IsDigit(c: char) {
    '0' <= c <= '9'
  }

  function DigitValue(c: char): nat
    requires IsDigit(c)
  {
    (c as int - '0' as int) as nat
  }

  /** Decimal notation of a natural number, without leading zeros. */
  function NatToString(n: nat): (s: string)
    ensures |s| >= 1
    ensures forall i :: 0 <= i < |s| ==> IsDigit(s[i])
  {
    if n < 10 then [DigitChar(n)] else NatToString(n / 10) + [DigitChar(n % 10)]
  }

  /** Reads a string of digits back as a number. */
  function StringToNat(s: string): nat
    requires forall i :: 0 <= i < |s| ==> IsDigit(s[i])
  {
    if s == [] then 0 else StringToNat(s[..|s| - 1]) * 10 + DigitValue(s[|s| - 1])
  }

  lemma {:induction false} StringToNatInverts(n: nat)
    ensures StringToNat(NatToString(n)) == n
  {
    var s := NatToString(n);
    if n >= 10 {
      assert s[..|s| - 1] == NatToString(n / 10);
      StringToNatInverts(n / 10);
    }
  }

  /** The decimal fraction of a number of quarters (0 to 3), as JavaScript prints it. */
  function FractionSuffix(r: nat): (s: string)
    requires r < Q
    ensures s == [] || s[0] == '.'
  {
    if r == 0 then "" else if r == 1 then ".25" else if r == 2 then ".5" else ".75"
  }

  function Abs(x: int): nat {
    if x < 0 then -x else x
  }

  /** `String(v)` for a flag value. */
  function Show(v: FlagValue): string {
    match v
    case B(b) => if b then "true" else "false"
    case N(q) => (if q < 0 then "-" else "") + Magnitude(q)
  }

  /** The decimal notation of a number of quarters, without its sign. */
  function Magnitude(q: int): (s: string)
    ensures |s| >= 1 && IsDigit(s[0])
  {
    NatToString(Abs(q) / Q) + FractionSuffix(Abs(q) % Q)
  }

  /** The number of digits a string starts with. */
  function LeadingDigits(s: string): nat {
    if s == [] || !IsDigit(s[0]) then 0 else 1 + LeadingDigits(s[1..])
  }

  lemma {:induction false} LeadingDigitsOfNumber(s: string, x: string)
    requires forall i :: 0 <= i < |s| ==> IsDigit(s[i])
    requires x == [] || x[0] == '.'
    ensures LeadingDigits(s + x) == |s|
  {
    if s != [] {
      assert (s + x)[1..] == s[1..] + x;
      LeadingDigitsOfNumber(s[1..], x);
    }
  }

  /** Digits followed by an optional fraction determine both parts. */
  lemma SplitDecimal(a: nat, x: string, b: nat, y: string)
    requires x == [] || x[0] == '.'
    requires y == [] || y[0] == '.'
    requires NatToString(a) + x == NatToString(b) + y
    ensures a == b && x == y
  {
    var sa, sb := NatToString(a), NatToString(b);
    LeadingDigitsOfNumber(sa, x);
    LeadingDigitsOfNumber(sb, y);
    assert sa == (sa + x)[..|sa|] == (sb + y)[..|sb|] == sb;
    StringToNatInverts(a);
    StringToNatInverts(b);
  }

  function FractionOf(s: string): nat
  {
    if s == "" then 0 else if s == ".25" then 1 else if s == ".5" then 2 else 3
  }

  lemma MagnitudeInjective(p: int, q: int)
    requires Magnitude(p) == Magnitude(q)
    ensures Abs(p) == Abs(q)
  {
    SplitDecimal(Abs(p) / Q, FractionSuffix(Abs(p) % Q), Abs(q) / Q, FractionSuffix(Abs(q) % Q));
    assert FractionOf(FractionSuffix(Abs(p) % Q)) == Abs(p) % Q;
    assert FractionOf(FractionSuffix(Abs(q) % Q)) == Abs(q) % Q;
  }

  /** A boolean is shown with a letter first, a number with a sign or a digit. */
  lemma ShowStart(v: FlagValue)
    ensures |Show(v)| >= 1
    ensures v.B? <==> Show(v)[0] in {'t', 'f'}
    ensures v.N? ==> (Show(v)[0] == '-' <==> v.q < 0)
  {
  }

  /** Different values are shown as different strings. */
  lemma ShowInjective(v: FlagValue, w: FlagValue)
    requires Show(v) == Show(w)
    ensures v == w
  {
    if v.N? && w.N? {
      var p, q := v.q, w.q;
      if p < 0 && q < 0 {
        assert Magnitude(p) == Show(v)[1..] == Show(w)[1..] == Magnitude(q);
        MagnitudeInjective(p, q);
      } else if p >= 0 && q >= 0 {
        assert Magnitude(p) == Show(v) == Show(w) == Magnitude(q);
        MagnitudeInjective(p, q);
      } else {
        ShowStart(v);
        ShowStart(w);
        assert false;
      }
    } else if v.N? || w.N? {
      ShowStart(v);
      ShowStart(w);
      assert false;
    }
  }

  /**
   * `m` recovers the values of `range` from their strings: every value is found
   * under its string, and every key is the string of a value of the range.
   */
  ghost predicate Recovers(m: map<string, FlagValue>, range: seq<FlagValue>) {
    (forall v :: v in range ==> Show(v) in m && m[Show(v)] == v) &&
    (forall s :: s in m ==> m[s] in range && Show(m[s]) == s)
  }

  /** The string map of a range: each value stored under its string, later values last. */
  function StringValueMapOf(range: seq<FlagValue>): map<string, FlagValue> {
    if range == [] then map[]
    else StringValueMapOf(range[..|range| - 1])[Show(range[|range| - 1]) := range[|range| - 1]]
  }

  /** Because `Show` is injective, no value of the range is overwritten by another. */
  lemma {:induction false} StringValueMapRecovers(range: seq<FlagValue>)
    ensures Recovers(StringValueMapOf(range), range)
  {
    if range != [] {
      var init, last := range[..|range| - 1], range[|range| - 1];
      StringValueMapRecovers(init);
      forall v | v in init && Show(v) == Show(last) ensures v == last {
        ShowInjective(v, last);
      }
      assert forall v :: v in range ==> v in init || v == last;
    }
  }

  /** The loop that fills `stringValueMap[flag]` from a dropdown's range. */
  method BuildStringValueMap(range: seq<FlagValue>) returns (m: map<string, FlagValue>)
    ensures m == StringValueMapOf(range)
    ensures Recovers(m, range)
  {
    m := map[];
    var index := 0;
    while index < |range|
      invariant 0 <= index <= |range|
      invariant m == StringValueMapOf(range[..index])
    {
      var realValue := range[index];
      var stringValue := Show(realValue);
      m := m[stringValue := realValue];
      assert range[..index + 1][..index] == range[..index];
      index := index + 1;
    }
    assert range[..index] == range;
    StringValueMapRecovers(range);
  }
}
