/** The few string operations the modelled code leans on, character by character. */
module Text {

  /** unicode.IsSpace. */
  predicate IsSpace(c: char) {
    c in {'\t', '\n', '\U{0B}', '\U{0C}', '\r', ' ', '\U{85}', '\U{A0}', '\U{1680}', '\U{2028}', '\U{2029}',
          '\U{202F}', '\U{205F}', '\U{3000}'} || '\U{2000}' <= c <= '\U{200A}'
  }

  predicate Blank(s: string) {
    forall i :: 0 <= i < |s| ==> IsSpace(s[i])
  }

  function TrimLeft(s: string): string {
    if s == "" || !IsSpace(s[0]) then s else TrimLeft(s[1..])
  }

  function TrimRight(s: string): string {
    if s == "" || !IsSpace(s[|s| - 1]) then s else TrimRight(s[..|s| - 1])
  }

  /** strings.TrimSpace. */
  function TrimSpace(s: string): string {
    TrimRight(TrimLeft(s))
  }

  lemma {:induction false} TrimLeftStart(s: string)
    ensures TrimLeft(s) == "" <==> Blank(s)
    ensures TrimLeft(s) != "" ==> !IsSpace(TrimLeft(s)[0])
  {
    if s != "" && IsSpace(s[0]) {
      TrimLeftStart(s[1..]);
      assert Blank(s) <==> Blank(s[1..]) by { assert s == [s[0]] + s[1..]; }
    }
  }

  lemma {:induction false} TrimRightKeeps(s: string)
    requires s != "" && !IsSpace(s[0])
    ensures TrimRight(s) != ""
  {
    if IsSpace(s[|s| - 1]) { TrimRightKeeps(s[..|s| - 1]); }
  }

  /** Trimming leaves nothing exactly of blank text. */
  lemma {:induction false} TrimIsBlank(s: string)
    ensures TrimSpace(s) == "" <==> Blank(s)
  {
    TrimLeftStart(s);
    if TrimLeft(s) != "" { TrimRightKeeps(TrimLeft(s)); }
  }

  lemma {:induction false} TrimLeftOf(a: string, s: string)
    requires Blank(a) && (s == "" || !IsSpace(s[0]))
    ensures TrimLeft(a + s) == s
  {
    if a == "" {
      assert a + s == s;
    } else {
      assert (a + s)[1..] == a[1..] + s;
      TrimLeftOf(a[1..], s);
    }
  }

  lemma {:induction false} TrimRightOf(s: string, b: string)
    requires Blank(b) && (s == "" || !IsSpace(s[|s| - 1]))
    ensures TrimRight(s + b) == s
  {
    if b == "" {
      assert s + b == s;
    } else {
      assert (s + b)[..|s + b| - 1] == s + b[..|b| - 1];
      TrimRightOf(s, b[..|b| - 1]);
    }
  }

  /** No blanks at either end. */
  predicate Tight(s: string) {
    s != "" ==> !IsSpace(s[0]) && !IsSpace(s[|s| - 1])
  }

  /** Trimming takes the blanks off both ends. */
  lemma {:induction false} TrimOf(a: string, s: string, b: string)
    requires Blank(a) && Blank(b) && Tight(s)
    ensures TrimSpace(a + s + b) == s
  {
    if s == "" {
      assert Blank(a + s + b) && a + s + b + "" == a + s + b;
      TrimLeftOf(a + s + b, "");
    } else {
      assert a + s + b == a + (s + b);
      TrimLeftOf(a, s + b);
      TrimRightOf(s, b);
    }
  }

  /** Any text is what trimming leaves of it, between blanks. */
  lemma {:induction false} TrimSplits(s: string) returns (a: string, b: string)
    ensures Blank(a) && Blank(b) && Tight(TrimSpace(s)) && s == a + TrimSpace(s) + b
  {
    a := LeftPart(s);
    b := RightPart(TrimLeft(s));
    if TrimLeft(s) != "" { TrimRightStart(TrimLeft(s)); }
    TrimLeftStart(s);
    assert a + (TrimSpace(s) + b) == a + TrimSpace(s) + b;
  }

  lemma {:induction false} LeftPart(s: string) returns (a: string)
    ensures Blank(a) && s == a + TrimLeft(s)
  {
    if s == "" || !IsSpace(s[0]) {
      a := "";
    } else {
      var rest := LeftPart(s[1..]);
      a := [s[0]] + rest;
      assert a + TrimLeft(s) == [s[0]] + (rest + TrimLeft(s[1..]));
    }
  }

  lemma {:induction false} RightPart(s: string) returns (b: string)
    ensures Blank(b) && s == TrimRight(s) + b && (TrimRight(s) != "" ==> !IsSpace(TrimRight(s)[|TrimRight(s)| - 1]))
  {
    if s == "" || !IsSpace(s[|s| - 1]) {
      b := "";
    } else {
      var init := s[..|s| - 1];
      var rest := RightPart(init);
      b := rest + [s[|s| - 1]];
      assert TrimRight(s) + b == (TrimRight(init) + rest) + [s[|s| - 1]];
    }
  }

  lemma {:induction false} TrimRightStart(s: string)
    requires s != ""
    ensures TrimRight(s) != "" ==> TrimRight(s)[0] == s[0]
  {
    if IsSpace(s[|s| - 1]) && |s| > 1 { TrimRightStart(s[..|s| - 1]); }
  }

  /** strings.HasPrefix. */
  predicate HasPrefix(s: string, prefix: string) {
    prefix <= s
  }

  /** Simple case folding as far as the letters of "stopped" need it: ASCII, and the long s. */
  function Fold(c: char): char {
    if 'A' <= c <= 'Z' then (c as int + 32) as char else if c == '\U{17F}' then 's' else c
  }

  predicate EqualFold(a: string, b: string) {
    |a| == |b| && forall i :: 0 <= i < |a| ==> Fold(a[i]) == Fold(b[i])
  }
}
