/** The string operations the core calls: `trim`, `toLowerCase`,
    `includes`, `join`, `substring` and a repeated `+=`. */
module Text {

  /** The code points `String.prototype.trim` removes: JavaScript's
      WhiteSpace (including every Zs space) and LineTerminator. */
  predicate IsSpace(c: char) {
    c == '\t' || c == '\n' || c == '\U{B}' || c == '\U{C}' || c == '\r'
    || c == ' ' || c == '\U{A0}' || c == '\U{1680}'
    || ('\U{2000}' <= c <= '\U{200A}')
    || c == '\U{2028}' || c == '\U{2029}' || c == '\U{202F}'
    || c == '\U{205F}' || c == '\U{3000}' || c == '\U{FEFF}'
  }

  predicate AllSpace(s: string) {
    forall i :: 0 <= i < |s| ==> IsSpace(s[i])
  }

  /** A text is blank exactly when both of its parts are. */
  lemma AllSpaceConcat(a: string, b: string)
    ensures AllSpace(a + b) <==> AllSpace(a) && AllSpace(b)
  {
    if AllSpace(a) && AllSpace(b) {
      forall i | 0 <= i < |a + b| ensures IsSpace((a + b)[i]) {
        if i < |a| {
          assert (a + b)[i] == a[i];
        } else {
          assert (a + b)[i] == b[i - |a|];
        }
      }
    }
    if AllSpace(a + b) {
      forall i | 0 <= i < |a| ensures IsSpace(a[i]) {
        assert (a + b)[i] == a[i];
      }
      forall i | 0 <= i < |b| ensures IsSpace(b[i]) {
        assert (a + b)[|a| + i] == b[i];
      }
    }
  }

  /** `trimStart`: the longest suffix that does not start with a space. */
  function TrimStart(s: string): (r: string)
    ensures |r| <= |s| && r == s[|s| - |r|..]
    ensures r == [] || !IsSpace(r[0])
    ensures AllSpace(s[..|s| - |r|])
  {
    if s != [] && IsSpace(s[0]) then
      var r := TrimStart(s[1..]);
      assert s[..|s| - |r|] == [s[0]] + s[1..][..|s[1..]| - |r|];
      AllSpaceConcat([s[0]], s[1..][..|s[1..]| - |r|]);
      r
    else
      assert s[..0] == [];
      s
  }

  /** `trimEnd`: the longest prefix that does not end with a space. */
  function TrimEnd(s: string): (r: string)
    ensures |r| <= |s| && r == s[..|r|]
    ensures r == [] || !IsSpace(r[|r| - 1])
    ensures AllSpace(s[|r|..])
  {
    if s != [] && IsSpace(s[|s| - 1]) then
      var init := s[..|s| - 1];
      var r := TrimEnd(init);
      assert s[|r|..] == init[|r|..] + [s[|s| - 1]];
      AllSpaceConcat(init[|r|..], [s[|s| - 1]]);
      r
    else
      assert s[|s|..] == [];
      s
  }

  /** `r` sits in `s` starting at position `k`. */
  predicate OccursAt(s: string, r: string, k: int) {
    0 <= k <= |s| - |r| && r == s[k..k + |r|]
  }

  /** `r` sits in `s` at `k`, and what lies before and after it is white
      space. */
  predicate Recorte(s: string, r: string, k: int) {
    OccursAt(s, r, k) && AllSpace(s[..k]) && AllSpace(s[k + |r|..])
  }

  /** `trim`: `s` with the white space at both ends cut off. The result is
      a piece of `s` with only white space around it and none at either of
      its own ends, and is empty exactly when `s` is made of spaces only. */
  function Trim(s: string): (r: string)
    ensures exists k :: Recorte(s, r, k)
    ensures r == [] || (!IsSpace(r[0]) && !IsSpace(r[|r| - 1]))
    ensures r == [] <==> AllSpace(s)
  {
    var t := TrimStart(s);
    var r := TrimEnd(t);
    TrimFacts(s, t, r);
    r
  }

  /** What `trimStart` then `trimEnd` leave: white space cut off the front
      of `s` to give `t`, then off the back of `t` to give `r`. */
  lemma TrimFacts(s: string, t: string, r: string)
    requires |t| <= |s| && t == s[|s| - |t|..] && AllSpace(s[..|s| - |t|]) && (t == [] || !IsSpace(t[0]))
    requires |r| <= |t| && r == t[..|r|] && AllSpace(t[|r|..])
    ensures Recorte(s, r, |s| - |t|)
    ensures r == [] <==> AllSpace(s)
  {
    var k := |s| - |t|;
    RecorteDePartes(s, k, t, r);
    if r == [] {
      assert t[|r|..] == t;
      BlankWhenBothPartsBlank(s, k, t);
    } else {
      NotBlankAfterBlank(s, k, t);
    }
  }

  /** A prefix `r` of the suffix `t` of `s` at `k`, with white space
      before `t` and after `r`, is a cut of `s`. */
  lemma RecorteDePartes(s: string, k: nat, t: string, r: string)
    requires k <= |s| && t == s[k..] && AllSpace(s[..k])
    requires |r| <= |t| && r == t[..|r|] && AllSpace(t[|r|..])
    ensures Recorte(s, r, k)
  {
    assert s[k + |r|..] == t[|r|..];
  }

  lemma BlankWhenBothPartsBlank(s: string, k: nat, t: string)
    requires k <= |s| && t == s[k..] && AllSpace(s[..k]) && AllSpace(t)
    ensures AllSpace(s)
  {
    assert s == s[..k] + t;
    AllSpaceConcat(s[..k], t);
  }

  lemma NotBlankAfterBlank(s: string, k: nat, t: string)
    requires k <= |s| && t == s[k..] && t != [] && !IsSpace(t[0])
    ensures !AllSpace(s)
  {
    assert s[k] == t[0];
  }

  /** `toLowerCase` on the Basic Latin and Latin-1 letters (A-Z and
      U+00C0-U+00DE except U+00D7), which covers the catalogue's genres. */
  function LowerChar(c: char): (r: char)
    ensures 'A' <= c <= 'Z' ==> r as int == c as int + 32
    ensures !('A' <= c <= 'Z') && !('\U{C0}' <= c <= '\U{DE}') ==> r == c
  {
    if 'A' <= c <= 'Z' || ('\U{C0}' <= c <= '\U{DE}' && c != '\U{D7}') then
      (c as int + 32) as char
    else
      c
  }

  function ToLower(s: string): (r: string)
    ensures |r| == |s|
    ensures forall i :: 0 <= i < |s| ==> r[i] == LowerChar(s[i])
  {
    seq(|s|, i requires 0 <= i < |s| => LowerChar(s[i]))
  }

  /** `s.includes(t)`: `t` is a prefix of some suffix of `s`. */
  predicate Contains(s: string, t: string) {
    t <= s || (s != [] && Contains(s[1..], t))
  }

  /** `Contains` holds exactly when `t` occurs at some position of `s`. */
  lemma {:induction false} ContainsIff(s: string, t: string)
    ensures Contains(s, t) <==> exists k :: OccursAt(s, t, k)
  {
    if t <= s {
      assert OccursAt(s, t, 0);
    } else if s == [] {
    } else {
      ContainsIff(s[1..], t);
      if exists k :: OccursAt(s, t, k) {
        var k :| OccursAt(s, t, k);
        if k == 0 {
          OcorreNoInicio(s, t, k);
        }
        OcorreNaCauda(s, t, k);
      }
      if Contains(s[1..], t) {
        var k :| OccursAt(s[1..], t, k);
        OcorreAposCabeca(s, t, k);
      }
    }
  }

  lemma OcorreNoInicio(s: string, t: string, k: int)
    requires OccursAt(s, t, k) && k == 0
    ensures t <= s
  {
  }

  lemma OcorreNaCauda(s: string, t: string, k: int)
    requires s != [] && OccursAt(s, t, k) && k != 0
    ensures OccursAt(s[1..], t, k - 1)
  {
    assert s[1..][k - 1..k - 1 + |t|] == s[k..k + |t|];
  }

  lemma OcorreAposCabeca(s: string, t: string, k: int)
    requires s != [] && OccursAt(s[1..], t, k)
    ensures OccursAt(s, t, k + 1)
  {
    assert s[1..][k..k + |t|] == s[k + 1..k + 1 + |t|];
  }

  /** `parts.join(sep)`. */
  function Join(parts: seq<string>, sep: string): string {
    if parts == [] then ""
    else if |parts| == 1 then parts[0]
    else parts[0] + sep + Join(parts[1..], sep)
  }

  /** `s` appended `n` times to an empty string, as a `for (i = 0; i < n; i++)`
      loop does; a negative `n` runs no iteration. */
  function Repeat(s: string, n: int): (r: string)
    ensures n <= 0 ==> r == ""
    ensures n > 0 ==> |r| == |s| * n
  {
    if n <= 0 then "" else Repeat(s, n - 1) + s
  }
}
