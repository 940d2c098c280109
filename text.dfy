/** The pieces of Rust's `str` API that the muxer relies on: `starts_with`,
    the search behind `split_once`, and `lines`, together with the inverse of
    `lines` that the muxer uses when it appends `line + "\n"` to a buffer. */
module Text {

  /** Rust's `str::starts_with`: `s` is `prefix` followed by something. */
  predicate StartsWith(s: string, prefix: string): (b: bool)
    ensures b <==> |prefix| <= |s| && forall i | 0 <= i < |prefix| :: s[i] == prefix[i]
    ensures b ==> s == prefix + s[|prefix|..]
  {
    |prefix| <= |s| && s[..|prefix|] == prefix
  }

  /** Index of the first occurrence of `c` in `s`, or `|s|` when there is none. */
  function IndexOf(s: string, c: char): (k: nat)
    ensures k <= |s|
    ensures forall i | 0 <= i < k :: s[i] != c
    ensures k < |s| ==> s[k] == c
    ensures k == |s| <==> c !in s
    decreases |s|
  {
    if s == [] || s[0] == c then 0 else 1 + IndexOf(s[1..], c)
  }

  predicate EndsWithCr(s: string) {
    |s| > 0 && s[|s| - 1] == '\r'
  }

  /** A line that survives being written with a "\n" terminator and read back
      by `Lines`: it holds no line feed and does not end in a carriage return. */
  predicate IsPlainLine(l: string) {
    '\n' !in l && !EndsWithCr(l)
  }

  predicate AllPlain(ls: seq<string>) {
    forall l | l in ls :: IsPlainLine(l)
  }

  function StripCr(l: string): string {
    if EndsWithCr(l) then l[..|l| - 1] else l
  }

  /** Rust's `str::lines`: split after every "\n", drop the "\n" and then one
      "\r" before it; a last piece without "\n" is kept as it is, and a final
      "\n" does not start an empty line. */
  function Lines(text: string): (r: seq<string>)
    ensures forall i | 0 <= i < |r| :: '\n' !in r[i]
    decreases |text|
  {
    if text == [] then []
    else
      var k := IndexOf(text, '\n');
      if k == |text| then [text]
      else
        assert '\n' !in text[..k];
        [StripCr(text[..k])] + Lines(text[k + 1..])
  }

  /** Every line followed by "\n", in order: the text a buffer holds after
      `writeln!` of each line. */
  function Unlines(ls: seq<string>): string {
    if ls == [] then "" else Unlines(ls[..|ls| - 1]) + ls[|ls| - 1] + "\n"
  }

  lemma UnlinesSnoc(ls: seq<string>, l: string)
    ensures Unlines(ls + [l]) == Unlines(ls) + l + "\n"
  {
    assert (ls + [l])[..|ls|] == ls;
  }

  lemma {:induction false} UnlinesAppend(a: seq<string>, b: seq<string>)
    ensures Unlines(a + b) == Unlines(a) + Unlines(b)
    decreases |b|
  {
    if b == [] {
      assert a + b == a;
    } else {
      var b' := b[..|b| - 1];
      assert a + b == (a + b') + [b[|b| - 1]];
      assert b == b' + [b[|b| - 1]];
      UnlinesSnoc(a + b', b[|b| - 1]);
      UnlinesSnoc(b', b[|b| - 1]);
      UnlinesAppend(a, b');
    }
  }

  /** `lines` undoes `Unlines` for lines that hold no line feed and do not end
      in a carriage return. */
  lemma {:induction false} LinesUnlines(ls: seq<string>)
    requires AllPlain(ls)
    ensures Lines(Unlines(ls)) == ls
    decreases |ls|
  {
    if ls != [] {
      var l, rest := ls[0], ls[1..];
      assert ls == [l] + rest;
      assert l in ls && IsPlainLine(l);
      UnlinesAppend([l], rest);
      UnlinesSnoc([], l);
      assert [] + [l] == [l];
      var text := Unlines(ls);
      assert text == l + "\n" + Unlines(rest);
      var k := IndexOf(text, '\n');
      assert forall i | 0 <= i < |l| :: text[i] == l[i] && l[i] != '\n';
      assert text[|l|] == '\n';
      assert k == |l|;
      assert text[..k] == l;
      assert text[k + 1..] == Unlines(rest);
      assert AllPlain(rest);
      LinesUnlines(rest);
    }
  }
}
