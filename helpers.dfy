/**
  The two helpers shared by every driver: the significant-change filter
  that decides whether a telemetry field is worth re-reporting, and the
  parser that pulls `x:<int>`, `y:<int>`, `z:<int>` jog amounts out of a
  `move...` action string.
 */
module Helpers {
  import opened Values

  // ---------------------------------------------------------------------
  // Significant-change filter

  const BedTemperature: string := "bed_temperature"
  const NozzleTemperature: string := "nozzle_temperature"

  /** The per-key thresholds table: only the two measured temperatures have
      one, and both are 0.7 degrees. */
  function Threshold(key: string): (t: Option<real>)
    ensures t.Some? <==> key == BedTemperature || key == NozzleTemperature
    ensures t.Some? ==> t.value == 0.7
  {
    if key == BedTemperature || key == NozzleTemperature then Some(0.7) else None
  }

  function Abs(x: real): real
  {
    if x < 0.0 then -x else x
  }

  /** `has_significant_difference(key, old_value, new_value)`: for a key with
      a threshold, the change counts when both values are numeric and differ
      by at least the threshold; when either is not numeric (`float()` raises)
      and for every other key it counts when the values differ (`!=`). */
  predicate HasSignificantDifference(key: string, oldValue: Value, newValue: Value)
    ensures HasSignificantDifference(key, oldValue, newValue) ==> oldValue != newValue
  {
    PyEqReflexive(oldValue);
    match Threshold(key)
    case Some(threshold) =>
      var n := AsNumber(newValue);
      var o := AsNumber(oldValue);
      if n.Some? && o.Some? then Abs(n.value - o.value) >= threshold
      else !PyEq(oldValue, newValue)
    case None => !PyEq(oldValue, newValue)
  }

  /** A temperature reading that moved by at least 0.7 is significant, one
      that moved by less is not. */
  lemma TemperatureThreshold(key: string, oldTemp: real, newTemp: real)
    requires key == BedTemperature || key == NozzleTemperature
    ensures HasSignificantDifference(key, Num(oldTemp), Num(newTemp))
            <==> (newTemp - oldTemp >= 0.7 || oldTemp - newTemp >= 0.7)
  {
  }

  /** When a temperature is missing or not numeric, the filter falls back to
      `!=`: a first reading after a reset (None -> 200.0) is significant. */
  lemma TemperatureFallback(key: string, oldValue: Value, newValue: Value)
    requires key == BedTemperature || key == NozzleTemperature
    requires AsNumber(oldValue).None? || AsNumber(newValue).None?
    ensures HasSignificantDifference(key, oldValue, newValue) <==> !PyEq(oldValue, newValue)
  {
  }

  /** Every key without a threshold is compared with `!=`. */
  lemma OtherKeysUseInequality(key: string, oldValue: Value, newValue: Value)
    requires key != BedTemperature && key != NozzleTemperature
    ensures HasSignificantDifference(key, oldValue, newValue) <==> !PyEq(oldValue, newValue)
  {
  }

  /** A value compared with itself is never significant, under any key. */
  lemma {:induction false} NotSignificantWhenEqual(key: string, v: Value)
    ensures !HasSignificantDifference(key, v, v)
  {
    PyEqReflexive(v);
  }

  /** The filter does not depend on the direction of the change. */
  lemma {:induction false} SignificanceSymmetric(key: string, a: Value, b: Value)
    ensures HasSignificantDifference(key, a, b) <==> HasSignificantDifference(key, b, a)
  {
    PyEqSymmetric(a, b);
  }

  // ---------------------------------------------------------------------
  // Move-command parser: re.findall(r'[xyz]:-?\d+', action_string)

  /** One regex match, already split at ':' and converted with `int()`. */
  datatype Token = Token(axis: char, value: int)

  predicate IsDigit(c: char)
  {
    '0' <= c <= '9'
  }

  predicate AllDigits(s: string)
  {
    forall i :: 0 <= i < |s| ==> IsDigit(s[i])
  }

  predicate IsAxis(c: char)
  {
    c == 'x' || c == 'y' || c == 'z'
  }

  /** Length of the longest run of digits in `s` starting at `i` (what the
      greedy `\d+` consumes). */
  function DigitRun(s: string, i: nat): (n: nat)
    requires i <= |s|
    ensures i + n <= |s|
    ensures AllDigits(s[i..i + n])
    ensures i + n < |s| ==> !IsDigit(s[i + n])
    decreases |s| - i
  {
    if i < |s| && IsDigit(s[i]) then
      var m := DigitRun(s, i + 1);
      assert s[i..i + 1 + m] == [s[i]] + s[i + 1..i + 1 + m];
      1 + m
    else 0
  }

  /** `int()` of a string of decimal digits. */
  function DigitsValue(ds: string): (v: nat)
    requires AllDigits(ds)
  {
    if ds == [] then 0
    else DigitsValue(ds[..|ds| - 1]) * 10 + (ds[|ds| - 1] as int - '0' as int)
  }

  /** The text at the start of `s` has the shape the regex accepts:
      a lower-case axis letter, ':', an optional '-', then a digit. */
  predicate TokenAt(s: string)
  {
    && |s| >= 3 && IsAxis(s[0]) && s[1] == ':'
    && (IsDigit(s[2]) || (s[2] == '-' && |s| >= 4 && IsDigit(s[3])))
  }

  /** The match of the pattern anchored at the start of `s`, with its
      length; `\d+` is greedy and `-?` is given back when no digit follows
      the minus sign. */
  function MatchPrefix(s: string): (m: Option<(Token, nat)>)
    ensures m.Some? <==> TokenAt(s)
    ensures m.Some? ==> 3 <= m.value.1 <= |s| && m.value.0.axis == s[0]
  {
    if |s| >= 3 && IsAxis(s[0]) && s[1] == ':' then
      var negative := s[2] == '-';
      var start: nat := if negative then 3 else 2;
      var n := DigitRun(s, start);
      if n == 0 then None
      else
        var magnitude: int := DigitsValue(s[start..start + n]);
        Some((Token(s[0], if negative then -magnitude else magnitude), start + n))
    else None
  }

  /** `re.findall`: scan left to right; after a match resume right behind
      it, otherwise move on by one character. */
  function FindAll(s: string): (ts: seq<Token>)
    ensures forall i :: 0 <= i < |ts| ==> IsAxis(ts[i].axis)
    decreases |s|
  {
    if s == [] then []
    else match MatchPrefix(s)
      case Some((tok, len)) => [tok] + FindAll(s[len..])
      case None => FindAll(s[1..])
  }

  /** The value the dictionary `move_values` holds for `axis` after the
      loop, or the default 0 of `move_values.get(axis, 0)`. */
  function AxisValue(ts: seq<Token>, axis: char): (v: int)
    ensures v != 0 ==> Token(axis, v) in ts
  {
    if ts == [] then 0
    else if ts[|ts| - 1].axis == axis then ts[|ts| - 1].value
    else
      var v := AxisValue(ts[..|ts| - 1], axis);
      assert v != 0 ==> Token(axis, v) in ts[..|ts| - 1];
      v
  }

  /** The jog the action string asks for, as `parse_move_command` returns it. */
  function MoveValues(actionString: string): (r: (int, int, int))
    ensures r.0 != 0 ==> Token('x', r.0) in FindAll(actionString)
    ensures r.1 != 0 ==> Token('y', r.1) in FindAll(actionString)
    ensures r.2 != 0 ==> Token('z', r.2) in FindAll(actionString)
  {
    var ts := FindAll(actionString);
    (AxisValue(ts, 'x'), AxisValue(ts, 'y'), AxisValue(ts, 'z'))
  }

  /** `parse_move_command`: fill a dictionary from the matches in order,
      then read the three axes with default 0. */
  method ParseMoveCommand(actionString: string) returns (x: int, y: int, z: int)
    ensures (x, y, z) == MoveValues(actionString)
  {
    var matches := FindAll(actionString);
    var moveValues: map<char, int> := map[];
    for i := 0 to |matches|
      invariant forall a :: a in moveValues ==> moveValues[a] == AxisValue(matches[..i], a)
      invariant forall a :: a !in moveValues ==> AxisValue(matches[..i], a) == 0
    {
      assert matches[..i + 1][..i] == matches[..i];
      moveValues := moveValues[matches[i].axis := matches[i].value];
    }
    assert matches[..|matches|] == matches;
    x := if 'x' in moveValues then moveValues['x'] else 0;
    y := if 'y' in moveValues then moveValues['y'] else 0;
    z := if 'z' in moveValues then moveValues['z'] else 0;
  }

  /** The value for an axis is that of its LAST token; an axis with no
      token gets 0. */
  lemma {:induction false} AxisValueIsLast(ts: seq<Token>, axis: char)
    ensures (forall i :: 0 <= i < |ts| ==> ts[i].axis != axis) ==> AxisValue(ts, axis) == 0
    ensures forall i :: 0 <= i < |ts| && ts[i].axis == axis
              && (forall j :: i < j < |ts| ==> ts[j].axis != axis)
              ==> AxisValue(ts, axis) == ts[i].value
  {
    if ts != [] {
      var init := ts[..|ts| - 1];
      AxisValueIsLast(init, axis);
      forall i | 0 <= i < |init| ensures init[i] == ts[i] { }
    }
  }

  /** A string in which no position starts a token yields no match at all,
      and so parses to (0, 0, 0); conversely one token-shaped position is
      enough for a match. */
  lemma {:induction false} FindAllEmptyIff(s: string)
    ensures FindAll(s) == [] <==> forall i :: 0 <= i < |s| ==> !TokenAt(s[i..])
    decreases |s|
  {
    if s != [] && !TokenAt(s) {
      FindAllEmptyIff(s[1..]);
      forall i | 0 <= i < |s| - 1 ensures s[1..][i..] == s[i + 1..] { }
      if FindAll(s[1..]) != [] {
        var i :| 0 <= i < |s| - 1 && TokenAt(s[1..][i..]);
        assert TokenAt(s[i + 1..]);
      }
      if FindAll(s[1..]) == [] {
        forall i | 0 <= i < |s| ensures !TokenAt(s[i..]) {
          if i > 0 { assert s[i..] == s[1..][i - 1..]; }
        }
      }
    } else if s != [] {
      assert s[0..] == s;
    }
  }

  lemma NoTokenParsesToZero(s: string)
    requires forall i :: 0 <= i < |s| ==> !TokenAt(s[i..])
    ensures MoveValues(s) == (0, 0, 0)
  {
    FindAllEmptyIff(s);
  }

  /** The jog written without colons (`move_x10y0z0`) holds no token, so
      it parses to (0, 0, 0): the head does not move. */
  lemma JogWithoutColons()
    ensures MoveValues("move_x10y0z0") == (0, 0, 0)
  {
    var s := "move_x10y0z0";
    forall i | 0 <= i < |s| ensures !TokenAt(s[i..]) {
      if i + 1 < |s| {
        assert s[i..][1] == s[i + 1];
      }
    }
    NoTokenParsesToZero(s);
  }

  /** Upper-case axis letters, a missing colon or a minus sign without
      digits do not form a token. */
  lemma MalformedTokensIgnored()
    ensures FindAll("X:5") == [] && FindAll("x5") == [] && FindAll("x:-") == []
  {
    FindAllEmptyIff("X:5");
    FindAllEmptyIff("x5");
    FindAllEmptyIff("x:-");
    assert "X:5"[1..] == ":5" && "X:5"[2..] == "5";
    assert "x5"[1..] == "5";
    assert "x:-"[1..] == ":-" && "x:-"[2..] == "-";
  }

  // ---------------------------------------------------------------------
  // Decimal rendering, as `str(n)` / f"{n}" produce it

  function DigitChar(d: nat): (c: char)
    requires d < 10
    ensures IsDigit(c) && c as int - '0' as int == d
  {
    ('0' as int + d) as char
  }

  function NatToString(n: nat): (s: string)
    ensures |s| > 0 && AllDigits(s)
  {
    if n < 10 then [DigitChar(n)] else NatToString(n / 10) + [DigitChar(n % 10)]
  }

  function IntToString(n: int): (s: string)
    ensures |s| > 0
  {
    if n < 0 then "-" + NatToString(-n) else NatToString(n)
  }

  /** `int(str(n)) == n` on the digits. */
  lemma {:induction false} NatToStringValue(n: nat)
    ensures DigitsValue(NatToString(n)) == n
  {
    if n >= 10 {
      var s := NatToString(n);
      assert s[..|s| - 1] == NatToString(n / 10);
      NatToStringValue(n / 10);
    }
  }

  /** Greedy `\d+` stops exactly at the end of a digit block that is
      followed by a non-digit (or by the end of the string). */
  lemma {:induction false} DigitRunOfBlock(ds: string, rest: string, i: nat)
    requires AllDigits(ds) && i <= |ds|
    requires rest == [] || !IsDigit(rest[0])
    ensures DigitRun(ds + rest, i) == |ds| - i
    decreases |ds| - i
  {
    if i < |ds| {
      DigitRunOfBlock(ds, rest, i + 1);
    }
  }

  /** The matcher reads `<axis>:<str(v)>` back as the token (axis, v) when a
      non-digit (or nothing) follows. */
  lemma MatchRendered(axis: char, v: int, rest: string)
    requires IsAxis(axis)
    requires rest == [] || !IsDigit(rest[0])
    ensures MatchPrefix([axis, ':'] + IntToString(v) + rest)
            == Some((Token(axis, v), 2 + |IntToString(v)|))
  {
    var magnitude: nat := if v < 0 then -v else v;
    var sign: string := if v < 0 then "-" else [];
    var ds := NatToString(magnitude);
    assert IntToString(v) == sign + ds;
    NatToStringValue(magnitude);
    MatchDigits(axis, IntToString(v), sign, ds, rest, magnitude);
  }

  /** The matcher on `<axis>:<sign><digits><rest>`, for any block of digits
      followed by a non-digit or by nothing. */
  lemma MatchDigits(axis: char, text: string, sign: string, ds: string, rest: string, magnitude: nat)
    requires IsAxis(axis) && (sign == [] || sign == "-") && text == sign + ds
    requires |ds| > 0 && AllDigits(ds) && DigitsValue(ds) == magnitude
    requires rest == [] || !IsDigit(rest[0])
    ensures MatchPrefix([axis, ':'] + text + rest)
            == Some((Token(axis, if sign == [] then magnitude else -(magnitude as int)), 2 + |text|))
  {
    var s := [axis, ':'] + text + rest;
    SignedLayout(axis, text, sign, ds, rest);
    DigitRunOfBlock(ds, rest, 0);
    DigitRunSuffix(s, 2 + |sign|);
    MatchPrefixParts(s, axis, sign != [], 2 + |sign|, ds, magnitude);
  }

  /** Where the axis, the sign and the digits sit in `<axis>:<sign><digits><rest>`. */
  lemma SignedLayout(axis: char, text: string, sign: string, ds: string, rest: string)
    requires (sign == [] || sign == "-") && text == sign + ds
    requires |ds| > 0 && AllDigits(ds)
    ensures var s := [axis, ':'] + text + rest;
            var start := 2 + |sign|;
            |s| >= 3 && s[0] == axis && s[1] == ':' && (s[2] == '-' <==> sign != [])
            && start + |ds| <= |s| && s[start..] == ds + rest && s[start..start + |ds|] == ds
  {
    var s := [axis, ':'] + text + rest;
    var start := 2 + |sign|;
    assert s[2] == text[0];
    if sign == [] {
      assert text[0] == ds[0] && IsDigit(ds[0]);
    } else {
      assert text[0] == '-';
    }
    assert forall k :: 0 <= k < |ds| ==> s[start + k] == ds[k];
    assert forall k :: 0 <= k < |rest| ==> s[start + |ds| + k] == rest[k];
    assert s[start..] == ds + rest;
  }

  /** MatchPrefix read off from the facts that determine it. */
  lemma MatchPrefixParts(s: string, axis: char, negative: bool, start: nat, ds: string, magnitude: nat)
    requires |s| >= 3 && IsAxis(axis) && s[0] == axis && s[1] == ':'
    requires negative <==> s[2] == '-'
    requires start == if negative then 3 else 2
    requires |ds| > 0 && AllDigits(ds) && DigitsValue(ds) == magnitude
    requires DigitRun(s, start) == |ds|
    requires start + |ds| <= |s| && s[start..start + |ds|] == ds
    ensures MatchPrefix(s) == Some((Token(axis, if negative then -(magnitude as int) else magnitude),
                                    start + |ds|))
  {
  }

  /** A digit run does not depend on what precedes its start. */
  lemma {:induction false} DigitRunSuffix(s: string, i: nat)
    requires i <= |s|
    ensures DigitRun(s, i) == DigitRun(s[i..], 0)
    decreases |s| - i
  {
    if i < |s| && IsDigit(s[i]) {
      DigitRunSuffix(s, i + 1);
      DigitRunSuffix(s[i..], 1);
      assert s[i..][1..] == s[i + 1..];
    }
  }

  /** Characters that cannot start a token are skipped one at a time. */
  lemma {:induction false} FindAllSkips(p: string, s: string)
    requires forall i :: 0 <= i < |p| ==> !IsAxis(p[i])
    ensures FindAll(p + s) == FindAll(s)
    decreases |p|
  {
    if p != [] {
      assert !IsAxis((p + s)[0]);
      assert MatchPrefix(p + s).None?;
      assert (p + s)[1..] == p[1..] + s;
      assert forall i :: 0 <= i < |p[1..]| ==> !IsAxis(p[1..][i]) by {
        forall i | 0 <= i < |p[1..]| ensures !IsAxis(p[1..][i]) { assert p[1..][i] == p[i + 1]; }
      }
      FindAllSkips(p[1..], s);
    } else {
      assert p + s == s;
    }
  }

  /** A rendered token followed by a non-digit is matched in one step. */
  lemma FindAllRendered(s: string, axis: char, v: int, rest: string)
    requires IsAxis(axis)
    requires rest == [] || !IsDigit(rest[0])
    requires s == [axis, ':'] + IntToString(v) + rest
    ensures FindAll(s) == [Token(axis, v)] + FindAll(rest)
  {
    MatchRendered(axis, v, rest);
    assert s[2 + |IntToString(v)|..] == rest;
  }

  /** The three tokens of a rendered jog, in order. */
  lemma {:induction false} FindAllJog(a: int, b: int, c: int)
    ensures FindAll("move_x:" + IntToString(a) + "_y:" + IntToString(b) + "_z:" + IntToString(c))
            == [Token('x', a), Token('y', b), Token('z', c)]
  {
    var sa, sb, sc := IntToString(a), IntToString(b), IntToString(c);
    var sz := ['z', ':'] + sc + [];
    var uz := "_" + sz;
    var sy := ['y', ':'] + sb + uz;
    var uy := "_" + sy;
    var sx := ['x', ':'] + sa + uy;
    assert "move_" + sx == "move_x:" + sa + "_y:" + sb + "_z:" + sc;
    FindAllRendered(sz, 'z', c, []);
    FindAllSkips("_", sz);
    FindAllRendered(sy, 'y', b, uz);
    FindAllSkips("_", sy);
    FindAllRendered(sx, 'x', a, uy);
    FindAllSkipsMove(sx);
  }

  lemma FindAllSkipsMove(s: string)
    ensures FindAll("move_" + s) == FindAll(s)
  {
    var prefix := "move_";
    assert prefix[0] == 'm' && prefix[1] == 'o' && prefix[2] == 'v' && prefix[3] == 'e' && prefix[4] == '_';
    FindAllSkips(prefix, s);
  }

  /** Round trip: the action the remote side builds from a jog,
      "move_x:<a>_y:<b>_z:<c>", parses back to (a, b, c). */
  lemma MoveRoundTrip(a: int, b: int, c: int)
    ensures MoveValues("move_x:" + IntToString(a) + "_y:" + IntToString(b) + "_z:" + IntToString(c))
            == (a, b, c)
  {
    FindAllJog(a, b, c);
    var ts := [Token('x', a), Token('y', b), Token('z', c)];
    var t2 := [Token('x', a), Token('y', b)];
    var t1 := [Token('x', a)];
    assert ts[..2] == t2 && t2[..1] == t1 && t1[..0] == [];
    assert AxisValue(t1, 'x') == a;
    assert AxisValue(t2, 'x') == a;
    assert AxisValue(t2, 'y') == b;
  }
}
