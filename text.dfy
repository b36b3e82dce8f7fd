/** The JavaScript string primitives the quiz rules are built from:
    `s.replace(/[^0-9]/g, '')`, `parseInt` on a string of digits,
    `String.prototype.trim` and `String.prototype.includes`. */
module Text {

  import opened Missions

  predicate IsDigit(c: char)
  {
    '0' <= c <= '9'
  }

  predicate AllDigits(s: string)
  {
    forall i :: 0 <= i < |s| ==> IsDigit(s[i])
  }

  predicate NoDigits(s: string)
  {
    forall i :: 0 <= i < |s| ==> !IsDigit(s[i])
  }

  /** `s.replace(/[^0-9]/g, '')`: deletes every character that is not an
      ASCII digit and keeps the digits in their order. */
  function StripNonDigits(s: string): (r: string)
    ensures AllDigits(r)
    ensures |r| <= |s|
  {
    if s == [] then []
    else (if IsDigit(s[0]) then [s[0]] else []) + StripNonDigits(s[1..])
  }

  /** Stripping distributes over concatenation. */
  lemma {:induction false} StripAppend(a: string, b: string)
    ensures StripNonDigits(a + b) == StripNonDigits(a) + StripNonDigits(b)
  {
    if a == [] {
      assert a + b == b;
    } else {
      assert (a + b)[0] == a[0] && (a + b)[1..] == a[1..] + b;
      StripAppend(a[1..], b);
    }
  }

  /** A string of digits is left as it is. */
  lemma {:induction false} StripKeepsDigits(d: string)
    requires AllDigits(d)
    ensures StripNonDigits(d) == d
  {
    if d != [] {
      StripKeepsDigits(d[1..]);
    }
  }

  /** A string without digits is deleted entirely. */
  lemma {:induction false} StripDropsNonDigits(u: string)
    requires NoDigits(u)
    ensures StripNonDigits(u) == []
  {
    if u != [] {
      StripDropsNonDigits(u[1..]);
    }
  }

  function DigitValue(c: char): (v: nat)
    requires IsDigit(c)
    ensures v < 10
  {
    (c as int) - ('0' as int)
  }

  function DigitChar(v: nat): (c: char)
    requires v < 10
    ensures IsDigit(c) && DigitValue(c) == v
  {
    (('0' as int) + v) as char
  }

  /** Reads the digits of `d` after the value `acc` already read, most
      significant first, as `parseInt` does. */
  function DecimalFrom(acc: nat, d: string): nat
    requires AllDigits(d)
    decreases |d|
  {
    if d == [] then acc else DecimalFrom(acc * 10 + DigitValue(d[0]), d[1..])
  }

  /** The value of a string of decimal digits. */
  function DecimalValue(d: string): nat
    requires AllDigits(d)
  {
    DecimalFrom(0, d)
  }

  /** Reading two runs of digits one after the other is reading their
      concatenation. */
  lemma {:induction false} DecimalFromAppend(acc: nat, a: string, b: string)
    requires AllDigits(a) && AllDigits(b)
    ensures AllDigits(a + b) && DecimalFrom(acc, a + b) == DecimalFrom(DecimalFrom(acc, a), b)
    decreases |a|
  {
    if a == [] {
      assert a + b == b;
    } else {
      assert (a + b)[0] == a[0] && (a + b)[1..] == a[1..] + b;
      DecimalFromAppend(acc * 10 + DigitValue(a[0]), a[1..], b);
    }
  }

  /** `parseInt` applied to a string that holds only digits: NaN (here None)
      for the empty string, the decimal value otherwise. */
  function ParseDigits(d: string): (r: Option<nat>)
    requires AllDigits(d)
    ensures r.None? <==> d == []
  {
    if d == [] then None else Some(DecimalValue(d))
  }

  /** The shortest decimal rendering of a natural number. */
  function ToDecimal(n: nat): (s: string)
    ensures AllDigits(s) && |s| >= 1
  {
    if n < 10 then [DigitChar(n)] else ToDecimal(n / 10) + [DigitChar(n % 10)]
  }

  /** Rendering a number in decimal and parsing it back gives the number. */
  lemma {:induction false} DecimalRoundTrip(n: nat)
    ensures DecimalValue(ToDecimal(n)) == n
  {
    var c := DigitChar(n % 10);
    assert [c][0] == c && [c][1..] == [];
    if n >= 10 {
      DecimalFromAppend(0, ToDecimal(n / 10), [c]);
      DecimalRoundTrip(n / 10);
      assert DecimalFrom(n / 10, [c]) == n;
    } else {
      assert DecimalFrom(0, [c]) == n;
    }
  }

  /** Leading zeros do not change the value. */
  lemma LeadingZero(d: string)
    requires AllDigits(d)
    ensures AllDigits("0" + d) && DecimalValue("0" + d) == DecimalValue(d)
  {
    assert ("0" + d)[0] == '0' && ("0" + d)[1..] == d;
  }

  /** The characters `String.prototype.trim` removes: the ECMAScript
      WhiteSpace and LineTerminator code points. */
  predicate IsSpace(c: char)
  {
    || c == '\t' || c == '\n' || c == '\U{000B}' || c == '\U{000C}' || c == '\r'
    || c == ' ' || c == '\U{00A0}' || c == '\U{1680}'
    || ('\U{2000}' <= c <= '\U{200A}')
    || c == '\U{2028}' || c == '\U{2029}' || c == '\U{202F}' || c == '\U{205F}'
    || c == '\U{3000}' || c == '\U{FEFF}'
  }

  predicate AllSpace(s: string)
  {
    forall i :: 0 <= i < |s| ==> IsSpace(s[i])
  }

  /** Removes the leading white space. */
  function TrimStart(s: string): string
  {
    if s != [] && IsSpace(s[0]) then TrimStart(s[1..]) else s
  }

  /** Removes the trailing white space. */
  function TrimEnd(s: string): string
  {
    if s != [] && IsSpace(s[|s| - 1]) then TrimEnd(s[..|s| - 1]) else s
  }

  /** What is left after `TrimStart` is the suffix of `s` after a run of
      white space, and it does not start with white space. */
  lemma {:induction false} TrimStartSpec(s: string)
    ensures var r := TrimStart(s);
      |r| <= |s| && r == s[|s| - |r|..] && AllSpace(s[..|s| - |r|]) && (r != [] ==> !IsSpace(r[0]))
  {
    if s != [] && IsSpace(s[0]) {
      TrimStartSpec(s[1..]);
    }
  }

  /** What is left after `TrimEnd` is the prefix of `s` before a run of
      white space, and it does not end with white space. */
  lemma {:induction false} TrimEndSpec(s: string)
    ensures var r := TrimEnd(s);
      |r| <= |s| && r == s[..|r|] && AllSpace(s[|r|..]) && (r != [] ==> !IsSpace(r[|r| - 1]))
  {
    if s != [] && IsSpace(s[|s| - 1]) {
      var t := s[..|s| - 1];
      TrimEndSpec(t);
      var r := TrimEnd(s);
      assert r == TrimEnd(t);
      assert s[..|r|] == t[..|r|];
      assert s[|r|..] == t[|r|..] + [s[|s| - 1]];
    }
  }

  /** `String.prototype.trim`: removes the white space at both ends. */
  function Trim(s: string): (r: string)
    ensures |r| <= |s|
    ensures r != [] ==> !IsSpace(r[0]) && !IsSpace(r[|r| - 1])
  {
    var t := TrimStart(s);
    TrimStartSpec(s);
    TrimEndSpec(t);
    assert TrimEnd(t) != [] ==> TrimEnd(t)[0] == t[0];
    TrimEnd(t)
  }

  /** The trimmed string is a slice of `s` with only white space cut off on
      either side, and it neither starts nor ends with white space. */
  lemma TrimSpec(s: string)
    ensures var r := Trim(s);
      exists i :: 0 <= i <= |s| - |r| && r == s[i..i + |r|] && AllSpace(s[..i]) && AllSpace(s[i + |r|..])
    ensures var r := Trim(s);
      r != [] ==> !IsSpace(r[0]) && !IsSpace(r[|r| - 1])
  {
    var t := TrimStart(s);
    var r := TrimEnd(t);
    TrimStartSpec(s);
    TrimEndSpec(t);
    var i := |s| - |t|;
    assert t == s[i..];
    assert r == t[..|r|];
    assert r == s[i..i + |r|];
    assert s[i + |r|..] == t[|r|..];
    assert AllSpace(s[..i]) && AllSpace(s[i + |r|..]);
    if r != [] {
      assert t != [] && r[0] == t[0];
    }
  }

  lemma {:induction false} TrimStartPadded(p: string, s: string)
    requires AllSpace(p)
    ensures TrimStart(p + s) == TrimStart(s)
  {
    if p == [] {
      assert p + s == s;
    } else {
      var ps := p + s;
      assert ps[0] == p[0] && IsSpace(ps[0]);
      assert ps[1..] == p[1..] + s;
      TrimStartPadded(p[1..], s);
    }
  }

  lemma {:induction false} TrimEndPadded(s: string, q: string)
    requires AllSpace(q)
    ensures TrimEnd(s + q) == TrimEnd(s)
  {
    if q == [] {
      assert s + q == s;
    } else {
      var sq := s + q;
      assert sq[|sq| - 1] == q[|q| - 1] && IsSpace(sq[|sq| - 1]);
      assert sq[..|sq| - 1] == s + q[..|q| - 1];
      TrimEndPadded(s, q[..|q| - 1]);
    }
  }

  /** White space around a word that neither starts nor ends with white
      space is removed, and the word itself is kept. */
  lemma TrimPadded(p: string, s: string, q: string)
    requires AllSpace(p) && AllSpace(q)
    requires s != [] && !IsSpace(s[0]) && !IsSpace(s[|s| - 1])
    ensures Trim(p + s + q) == s
  {
    assert p + s + q == p + (s + q);
    TrimStartPadded(p, s + q);
    TrimEndPadded(s, q);
  }

  /** Trimming twice is trimming once. */
  lemma TrimIdempotent(s: string)
    ensures Trim(Trim(s)) == Trim(s)
  {
    var t := Trim(s);
    TrimSpec(s);
    if t != [] {
      TrimPadded([], t, []);
      assert [] + t + [] == t;
    }
  }

  predicate IsPrefix(t: string, s: string)
  {
    |t| <= |s| && s[..|t|] == t
  }

  /** `s.includes(t)`: some position of `s` starts a copy of `t`. */
  predicate Contains(s: string, t: string): (r: bool)
    decreases |s|
    ensures t == [] ==> r
    ensures s == [] ==> (r <==> t == [])
  {
    IsPrefix(t, s) || (s != [] && Contains(s[1..], t))
  }

  /** `t` occurs in `s` starting at index `i`. */
  predicate OccursAt(s: string, t: string, i: int)
  {
    0 <= i && i + |t| <= |s| && s[i..i + |t|] == t
  }

  /** An occurrence at any index is found by `Contains`. */
  lemma {:induction false} ContainsAt(s: string, t: string, i: int)
    requires OccursAt(s, t, i)
    ensures Contains(s, t)
  {
    if i > 0 {
      assert s[1..][i - 1..i - 1 + |t|] == s[i..i + |t|];
      ContainsAt(s[1..], t, i - 1);
    }
  }

  /** `Contains` holds only where there is an occurrence. */
  lemma {:induction false} ContainsWitness(s: string, t: string)
    requires Contains(s, t)
    ensures exists i :: OccursAt(s, t, i)
  {
    if IsPrefix(t, s) {
      assert OccursAt(s, t, 0);
    } else {
      ContainsWitness(s[1..], t);
      var i :| OccursAt(s[1..], t, i);
      assert s[1..][i..i + |t|] == s[i + 1..i + 1 + |t|];
      assert OccursAt(s, t, i + 1);
    }
  }

  /** An occurrence that neither starts nor ends with white space lies
      inside any slice that only white space surrounds. */
  lemma OccursInsideSlice(s: string, t: string, i: int, n: int, k: int)
    requires 0 <= i && 0 <= n && i + n <= |s|
    requires AllSpace(s[..i]) && AllSpace(s[i + n..])
    requires OccursAt(s, t, k)
    requires t != [] && !IsSpace(t[0]) && !IsSpace(t[|t| - 1])
    ensures OccursAt(s[i..i + n], t, k - i)
  {
    assert s[k] == t[0] by {
      assert s[k..k + |t|][0] == s[k];
    }
    assert s[k + |t| - 1] == t[|t| - 1] by {
      assert s[k..k + |t|][|t| - 1] == s[k + |t| - 1];
    }
    if k < i {
      assert false;
    }
    if k + |t| > i + n {
      assert false;
    }
    forall m | 0 <= m < |t|
      ensures s[i..i + n][k - i..k - i + |t|][m] == t[m]
    {
      assert s[i..i + n][k - i + m] == s[k + m] == s[k..k + |t|][m];
    }
  }

  /** An occurrence that neither starts nor ends with white space lies
      inside the trimmed string. */
  lemma ContainsSurvivesTrim(s: string, t: string)
    requires Contains(s, t)
    requires t != [] && !IsSpace(t[0]) && !IsSpace(t[|t| - 1])
    ensures Contains(Trim(s), t)
  {
    var u := TrimStart(s);
    var r := TrimEnd(u);
    TrimStartSpec(s);
    TrimEndSpec(u);
    var i := |s| - |u|;
    assert r == s[i..i + |r|] && s[i + |r|..] == u[|r|..];
    ContainsWitness(s, t);
    var k :| OccursAt(s, t, k);
    OccursInsideSlice(s, t, i, |r|, k);
    ContainsAt(r, t, k - i);
  }

  /** `Contains` agrees with the definition by occurrence, both ways. */
  lemma ContainsIff(s: string, t: string)
    ensures Contains(s, t) <==> exists i :: OccursAt(s, t, i)
  {
    if Contains(s, t) {
      ContainsWitness(s, t);
    }
    if exists i :: OccursAt(s, t, i) {
      var i :| OccursAt(s, t, i);
      ContainsAt(s, t, i);
    }
  }

  /** A string never contains a longer one. */
  lemma {:induction false} ContainsNoLonger(s: string, t: string)
    requires Contains(s, t)
    ensures |t| <= |s|
  {
    if !IsPrefix(t, s) {
      ContainsNoLonger(s[1..], t);
    }
  }

  /** A string contains itself and is contained in any text around it. */
  lemma ContainsInfix(a: string, t: string, b: string)
    ensures Contains(a + t + b, t)
  {
    assert (a + t + b)[|a|..|a| + |t|] == t;
    ContainsAt(a + t + b, t, |a|);
  }

  /** Some keyword of `keys` occurs in `s`. */
  predicate ContainsAny(s: string, keys: seq<string>)
  {
    keys != [] && (Contains(s, keys[0]) || ContainsAny(s, keys[1..]))
  }

  lemma {:induction false} ContainsAnyIff(s: string, keys: seq<string>)
    ensures ContainsAny(s, keys) <==> exists k :: 0 <= k < |keys| && Contains(s, keys[k])
  {
    if keys != [] {
      ContainsAnyIff(s, keys[1..]);
      assert forall k :: 1 <= k < |keys| ==> keys[k] == keys[1..][k - 1];
    }
  }
}
