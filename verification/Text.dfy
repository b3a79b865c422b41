/** Python's view of white space: `strip()` and `" ".join(value.split())`. */
module Text {
  /** The code points `str.split()` and `str.strip()` treat as white space. */
  predicate IsSpace(c: char) {
    || '\U{0009}' <= c <= '\U{000D}' || '\U{001C}' <= c <= '\U{0020}' || c == '\U{0085}' || c == '\U{00A0}'
    || c == '\U{1680}' || '\U{2000}' <= c <= '\U{200A}' || c == '\U{2028}' || c == '\U{2029}' || c == '\U{202F}'
    || c == '\U{205F}' || c == '\U{3000}'
  }

  predicate Blank(s: string) {
    forall i :: 0 <= i < |s| ==> IsSpace(s[i])
  }

  function TrimLeft(s: string): string {
    if s != "" && IsSpace(s[0]) then TrimLeft(s[1..]) else s
  }

  function TrimRight(s: string): string {
    if s != "" && IsSpace(s[|s| - 1]) then TrimRight(s[..|s| - 1]) else s
  }

  function Strip(s: string): string {
    TrimRight(TrimLeft(s))
  }

  lemma {:induction false} TrimLeftBlank(s: string)
    ensures TrimLeft(s) == "" <==> Blank(s)
    ensures TrimLeft(s) != "" ==> !IsSpace(TrimLeft(s)[0])
  {
    if s != "" && IsSpace(s[0]) {
      TrimLeftBlank(s[1..]);
      assert Blank(s) <==> Blank(s[1..]) by {
        if Blank(s[1..]) {
          forall i | 0 <= i < |s|
            ensures IsSpace(s[i])
          {
            if i > 0 {
              assert s[i] == s[1..][i - 1];
            }
          }
        }
      }
    }
  }

  lemma {:induction false} TrimRightBlank(s: string)
    ensures TrimRight(s) == "" <==> Blank(s)
  {
    if s != "" && IsSpace(s[|s| - 1]) {
      TrimRightBlank(s[..|s| - 1]);
      assert Blank(s) <==> Blank(s[..|s| - 1]);
    }
  }

  /** Stripping leaves nothing exactly when there was nothing but white space. */
  lemma StripEmptyIffBlank(s: string)
    ensures Strip(s) == "" <==> Blank(s)
  {
    TrimLeftBlank(s);
    TrimRightBlank(TrimLeft(s));
    if TrimLeft(s) != "" {
      assert !IsSpace(TrimLeft(s)[0]);
    }
  }

  lemma {:induction false} TrimLeftMeans(s: string) returns (a: nat)
    ensures a <= |s| && TrimLeft(s) == s[a..] && Blank(s[..a]) && (a < |s| ==> !IsSpace(s[a]))
  {
    if s != "" && IsSpace(s[0]) {
      var b := TrimLeftMeans(s[1..]);
      a := b + 1;
      assert s[1..][b..] == s[a..];
      assert forall i :: 0 < i < a ==> s[..a][i] == s[1..][..b][i - 1];
    } else {
      a := 0;
    }
  }

  lemma {:induction false} TrimRightMeans(s: string) returns (b: nat)
    ensures b <= |s| && TrimRight(s) == s[..b] && Blank(s[b..]) && (b > 0 ==> !IsSpace(s[b - 1]))
  {
    if s != "" && IsSpace(s[|s| - 1]) {
      var n := |s| - 1;
      b := TrimRightMeans(s[..n]);
      assert s[..n][..b] == s[..b];
      assert forall i :: 0 <= i < |s| - b ==> s[b..][i] == if b + i < n then s[..n][b..][i] else s[n];
    } else {
      b := |s|;
    }
  }

  /** Stripping takes away white space at both ends, all of it and nothing else. */
  lemma StripMeans(s: string) returns (before: string, after: string)
    ensures s == before + Strip(s) + after && Blank(before) && Blank(after)
    ensures Strip(s) != "" ==> !IsSpace(Strip(s)[0]) && !IsSpace(Strip(s)[|Strip(s)| - 1])
  {
    var a := TrimLeftMeans(s);
    var t := TrimLeft(s);
    var b := TrimRightMeans(t);
    before, after := s[..a], t[b..];
    assert s == s[..a] + s[a..] && t == t[..b] + t[b..];
    assert Strip(s) == t[..b];
  }

  // ---------------------------------------------------------------- " ".join(value.split())

  /** A maximal run of characters that are not white space. */
  ghost predicate Word(w: string) {
    w != "" && forall i :: 0 <= i < |w| ==> !IsSpace(w[i])
  }

  ghost predicate Words(ws: seq<string>) {
    forall i :: 0 <= i < |ws| ==> Word(ws[i])
  }

  function WordLength(s: string): (n: nat)
    ensures n <= |s|
    ensures forall i :: 0 <= i < n ==> !IsSpace(s[i])
    ensures n < |s| ==> IsSpace(s[n])
  {
    if s == "" || IsSpace(s[0]) then 0 else WordLength(s[1..]) + 1
  }

  function Split(s: string): seq<string>
    decreases |s|
  {
    if s == "" then []
    else if IsSpace(s[0]) then Split(s[1..])
    else [s[..WordLength(s)]] + Split(s[WordLength(s)..])
  }

  function Join(ws: seq<string>): string {
    if ws == [] then "" else if |ws| == 1 then ws[0] else ws[0] + " " + Join(ws[1..])
  }

  function Normalized(s: string): string {
    Join(Split(s))
  }

  lemma {:induction false} SplitIntoWords(s: string)
    ensures Words(Split(s))
    ensures Split(s) == [] <==> Blank(s)
    decreases |s|
  {
    if s == "" {
    } else if IsSpace(s[0]) {
      SplitIntoWords(s[1..]);
      assert forall i :: 0 < i < |s| ==> s[i] == s[1..][i - 1];
    } else {
      SplitIntoWords(s[WordLength(s)..]);
      assert Word(s[..WordLength(s)]);
    }
  }

  lemma WordAhead(w: string, rest: string)
    requires Word(w) && (rest == "" || IsSpace(rest[0]))
    ensures Split(w + rest) == [w] + Split(rest)
  {
    var s := w + rest;
    assert s[0] == w[0];
    assert forall i :: 0 <= i < |w| ==> s[i] == w[i];
    assert rest != "" ==> s[|w|] == rest[0];
    assert WordLength(s) == |w|;
    assert s[..|w|] == w && s[|w|..] == rest;
  }

  lemma {:induction false} SplitJoined(ws: seq<string>)
    requires Words(ws)
    ensures Split(Join(ws)) == ws
  {
    if ws == [] {
    } else if |ws| == 1 {
      WordAhead(ws[0], "");
      assert ws[0] + "" == ws[0];
    } else {
      var rest := " " + Join(ws[1..]);
      WordAhead(ws[0], rest);
      assert ws[0] + " " + Join(ws[1..]) == ws[0] + rest;
      assert rest[1..] == Join(ws[1..]) && IsSpace(rest[0]);
      SplitJoined(ws[1..]);
    }
  }

  /** Normalising twice is normalising once, and only white space normalises to nothing. */
  lemma NormalizedIsStable(s: string)
    ensures Normalized(Normalized(s)) == Normalized(s)
    ensures Normalized(s) == "" <==> Blank(s)
  {
    SplitIntoWords(s);
    SplitJoined(Split(s));
    if Split(s) != [] {
      assert Word(Split(s)[0]);
    }
  }

  /** Two texts normalise alike exactly when they have the same words in the same order. */
  lemma NormalizedKeepsWords(s: string, t: string)
    ensures Normalized(s) == Normalized(t) <==> Split(s) == Split(t)
  {
    SplitIntoWords(s);
    SplitIntoWords(t);
    SplitJoined(Split(s));
    SplitJoined(Split(t));
  }
}
