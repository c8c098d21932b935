/** The symptom normaliser of the diagnosis page:
    `input.toLowerCase().split(/[,;]/).map(s => s.trim()).filter(s => s)`. */
module Symptoms {
  import opened JsString

  predicate IsSeparator(c: char) {
    c == ',' || c == ';'
  }

  predicate NoSeparator(s: string) {
    forall k :: 0 <= k < |s| ==> !IsSeparator(s[k])
  }

  /** The separators of `s`, in order. */
  function Separators(s: string): (r: string)
    ensures forall k :: 0 <= k < |r| ==> IsSeparator(r[k])
  {
    if s == [] then []
    else if IsSeparator(s[0]) then [s[0]] + Separators(s[1..])
    else Separators(s[1..])
  }

  /** Puts the pieces back together, one separator between consecutive pieces. */
  function Interleave(pieces: seq<string>, seps: string): string
    requires |pieces| == |seps| + 1
  {
    if seps == [] then pieces[0]
    else pieces[0] + [seps[0]] + Interleave(pieces[1..], seps[1..])
  }

  /** `s.split(/[,;]/)`: the maximal separator-free pieces of `s`, one more
      than there are separators. `SplitRebuilds` and `SplitPieces` state what
      the pieces are. */
  function Split(s: string): (r: seq<string>)
    ensures |r| == |Separators(s)| + 1
  {
    if s == [] then [[]]
    else
      var rest := Split(s[1..]);
      if IsSeparator(s[0]) then [[]] + rest
      else [[s[0]] + rest[0]] + rest[1..]
  }

  /** Putting the separators back between the pieces gives the input again. */
  lemma {:induction false} SplitRebuilds(s: string)
    ensures Interleave(Split(s), Separators(s)) == s
  {
    if s != [] {
      var rest, seps := Split(s[1..]), Separators(s[1..]);
      SplitRebuilds(s[1..]);
      assert s == [s[0]] + s[1..];
      if IsSeparator(s[0]) {
        assert Split(s) == [[]] + rest && Separators(s) == [s[0]] + seps;
        assert (Split(s))[1..] == rest;
      } else {
        assert Split(s) == [[s[0]] + rest[0]] + rest[1..] && Separators(s) == seps;
        if seps == [] {
          assert Interleave(rest, seps) == rest[0];
        } else {
          var tail := Interleave(rest[1..], seps[1..]);
          assert Interleave(rest, seps) == rest[0] + [seps[0]] + tail;
          assert Split(s)[1..] == rest[1..];
          assert Interleave(Split(s), seps) == ([s[0]] + rest[0]) + [seps[0]] + tail;
        }
      }
    }
  }

  /** No piece contains a separator, and lower-case input gives lower-case
      pieces. */
  lemma {:induction false} SplitPieces(s: string)
    ensures forall i :: 0 <= i < |Split(s)| ==> NoSeparator(Split(s)[i])
    ensures NoUpper(s) ==> forall i :: 0 <= i < |Split(s)| ==> NoUpper(Split(s)[i])
  {
    if s != [] {
      var rest := Split(s[1..]);
      SplitPieces(s[1..]);
      assert NoUpper(s) ==> NoUpper(s[1..]) && !IsAsciiUpper(s[0]);
      if !IsSeparator(s[0]) {
        var first := [s[0]] + rest[0];
        assert forall k :: 1 <= k < |first| ==> first[k] == rest[0][k - 1];
      }
    }
  }

  function TrimAll(pieces: seq<string>): (r: seq<string>)
    ensures |r| == |pieces|
    ensures forall i :: 0 <= i < |r| ==> r[i] == Trim(pieces[i])
  {
    if pieces == [] then [] else [Trim(pieces[0])] + TrimAll(pieces[1..])
  }

  /** `filter(s => s)`: the empty string is the one falsy string. */
  function NonEmptyOnly(pieces: seq<string>): (r: seq<string>)
    ensures forall i :: 0 <= i < |r| ==> r[i] != [] && r[i] in pieces
  {
    if pieces == [] then []
    else if pieces[0] == [] then NonEmptyOnly(pieces[1..])
    else [pieces[0]] + NonEmptyOnly(pieces[1..])
  }

  /** The filter drops exactly the empty strings: a string is kept when it
      is in the input and non-empty, and a list without an empty string is
      kept whole. */
  lemma {:induction false} NonEmptyOnlyKeeps(pieces: seq<string>)
    ensures |NonEmptyOnly(pieces)| <= |pieces|
    ensures forall x :: x in NonEmptyOnly(pieces) <==> x in pieces && x != []
    ensures (forall i :: 0 <= i < |pieces| ==> pieces[i] != []) ==> NonEmptyOnly(pieces) == pieces
  {
    if pieces != [] {
      NonEmptyOnlyKeeps(pieces[1..]);
      assert pieces == [pieces[0]] + pieces[1..];
    }
  }

  /** A normalised symptom token: non-empty, no whitespace at either end, no
      separator, no upper-case letter. */
  predicate IsToken(t: string) {
    t != [] && !IsSpace(t[0]) && !IsSpace(t[|t| - 1]) && NoSeparator(t) && NoUpper(t)
  }

  /** The normaliser: every token it yields is a well-formed symptom token. */
  function Normalise(raw: string): (r: seq<string>)
    ensures forall i :: 0 <= i < |r| ==> IsToken(r[i])
  {
    SplitPieces(Lower(raw));
    TrimmedPiecesAreTokens(Split(Lower(raw)));
    NonEmptyOnly(TrimAll(Split(Lower(raw))))
  }

  /** Trimming separator-free, lower-case pieces and dropping the empty ones
      leaves only tokens. */
  lemma TrimmedPiecesAreTokens(pieces: seq<string>)
    requires forall i :: 0 <= i < |pieces| ==> NoSeparator(pieces[i]) && NoUpper(pieces[i])
    ensures forall i :: 0 <= i < |NonEmptyOnly(TrimAll(pieces))| ==> IsToken(NonEmptyOnly(TrimAll(pieces))[i])
  {
    var trimmed := TrimAll(pieces);
    var r := NonEmptyOnly(trimmed);
    forall i | 0 <= i < |r| ensures IsToken(r[i]) {
      var j :| 0 <= j < |trimmed| && trimmed[j] == r[i];
      TrimNoUpper(pieces[j]);
      TrimNoSeparator(pieces[j]);
    }
  }

  lemma TrimNoSeparator(s: string)
    requires NoSeparator(s)
    ensures NoSeparator(Trim(s))
  {
    var a := TrimSlice(s);
    var r := Trim(s);
    forall k | 0 <= k < |r| ensures !IsSeparator(r[k]) {
      assert r[k] == s[a + k];
    }
  }

  // ---------------------------------------------------------------------
  // What the normaliser keeps: every character that is neither whitespace
  // nor a separator survives, in order, and nothing else is added.

  /** The characters of `s` that carry symptom text. */
  function Significant(s: string): (r: string)
    ensures |r| <= |s|
  {
    if s == [] then []
    else if IsSpace(s[0]) || IsSeparator(s[0]) then Significant(s[1..])
    else [s[0]] + Significant(s[1..])
  }

  function ConcatSignificant(ts: seq<string>): string {
    if ts == [] then [] else Significant(ts[0]) + ConcatSignificant(ts[1..])
  }

  lemma {:induction false} SignificantAppend(a: string, b: string)
    ensures Significant(a + b) == Significant(a) + Significant(b)
  {
    if a == [] {
      assert a + b == b;
    } else {
      assert (a + b)[0] == a[0];
      assert (a + b)[1..] == a[1..] + b;
      SignificantAppend(a[1..], b);
    }
  }

  lemma {:induction false} SignificantEmptyIff(s: string)
    ensures Significant(s) == [] <==> forall k :: 0 <= k < |s| ==> IsSpace(s[k]) || IsSeparator(s[k])
  {
    if s != [] {
      SignificantEmptyIff(s[1..]);
      assert forall k :: 1 <= k < |s| ==> s[k] == s[1..][k - 1];
    }
  }

  lemma SignificantTrim(s: string)
    ensures Significant(Trim(s)) == Significant(s)
  {
    var a := TrimSlice(s);
    var r := Trim(s);
    var pre, post := s[..a], s[a + |r|..];
    assert s == pre + r + post;
    SignificantAppend(pre + r, post);
    SignificantAppend(pre, r);
    SignificantEmptyIff(pre);
    SignificantEmptyIff(post);
    assert Significant(pre) == [] && Significant(post) == [];
  }

  lemma {:induction false} SignificantInterleave(pieces: seq<string>, seps: string)
    requires |pieces| == |seps| + 1
    requires forall k :: 0 <= k < |seps| ==> IsSeparator(seps[k])
    ensures Significant(Interleave(pieces, seps)) == ConcatSignificant(pieces)
  {
    if seps != [] {
      SignificantInterleave(pieces[1..], seps[1..]);
      SignificantAppend(pieces[0] + [seps[0]], Interleave(pieces[1..], seps[1..]));
      SignificantAppend(pieces[0], [seps[0]]);
    } else {
      assert pieces[1..] == [];
    }
  }

  lemma {:induction false} ConcatTrimAll(pieces: seq<string>)
    ensures ConcatSignificant(TrimAll(pieces)) == ConcatSignificant(pieces)
  {
    if pieces != [] {
      SignificantTrim(pieces[0]);
      ConcatTrimAll(pieces[1..]);
      assert TrimAll(pieces)[1..] == TrimAll(pieces[1..]);
    }
  }

  lemma {:induction false} ConcatNonEmptyOnly(pieces: seq<string>)
    ensures ConcatSignificant(NonEmptyOnly(pieces)) == ConcatSignificant(pieces)
  {
    if pieces != [] {
      ConcatNonEmptyOnly(pieces[1..]);
      if pieces[0] != [] {
        assert NonEmptyOnly(pieces)[1..] == NonEmptyOnly(pieces[1..]);
      }
    }
  }

  /** No symptom text is lost or invented: the tokens, with their inner
      whitespace dropped, spell out the lower-cased input with its whitespace
      and separators dropped. */
  lemma NormaliseKeepsSymptomText(raw: string)
    ensures ConcatSignificant(Normalise(raw)) == Significant(Lower(raw))
  {
    var pieces := Split(Lower(raw));
    SplitRebuilds(Lower(raw));
    SignificantInterleave(pieces, Separators(Lower(raw)));
    ConcatTrimAll(pieces);
    ConcatNonEmptyOnly(TrimAll(pieces));
  }

  /** A well-formed token carries symptom text. */
  lemma TokenIsSignificant(t: string)
    requires IsToken(t)
    ensures Significant(t) != []
  {
    assert t == [t[0]] + t[1..];
  }

  /** The normaliser yields no token exactly when the input is made only of
      whitespace, commas and semicolons. */
  lemma NormaliseEmptyIff(raw: string)
    ensures Normalise(raw) == [] <==> forall k :: 0 <= k < |raw| ==> IsSpace(raw[k]) || IsSeparator(raw[k])
  {
    var low := Lower(raw);
    var r := Normalise(raw);
    NormaliseKeepsSymptomText(raw);
    SignificantEmptyIff(low);
    LowerKeepsBlankness(raw);
    if r != [] {
      TokenIsSignificant(r[0]);
      assert ConcatSignificant(r) == Significant(r[0]) + ConcatSignificant(r[1..]);
    }
  }

  /** Lower-casing turns no character into, or out of, whitespace or a separator. */
  lemma LowerKeepsBlankness(raw: string)
    ensures (forall k :: 0 <= k < |raw| ==> IsSpace(Lower(raw)[k]) || IsSeparator(Lower(raw)[k]))
        <==> (forall k :: 0 <= k < |raw| ==> IsSpace(raw[k]) || IsSeparator(raw[k]))
  {
    forall k | 0 <= k < |raw|
      ensures IsSpace(Lower(raw)[k]) || IsSeparator(Lower(raw)[k]) <==> IsSpace(raw[k]) || IsSeparator(raw[k])
    {
      if IsAsciiUpper(raw[k]) {
        assert 'a' <= Lower(raw)[k] <= 'z';
      }
    }
  }

  /** A piece without separators is not split. */
  lemma {:induction false} SplitNoSeparator(a: string)
    requires NoSeparator(a)
    ensures Split(a) == [a]
  {
    if a != [] {
      assert !IsSeparator(a[0]);
      SplitNoSeparator(a[1..]);
      assert [a[0]] + a[1..] == a;
    }
  }

  /** The first separator ends the first piece. */
  lemma {:induction false} SplitAtSeparator(a: string, c: char, b: string)
    requires NoSeparator(a) && IsSeparator(c)
    ensures Split(a + [c] + b) == [a] + Split(b)
  {
    var s := a + [c] + b;
    if a == [] {
      assert s == [c] + b && s[1..] == b;
    } else {
      assert s[0] == a[0] && s[1..] == a[1..] + [c] + b;
      SplitAtSeparator(a[1..], c, b);
      assert [a[0]] + a[1..] == a;
    }
  }

  // ---------------------------------------------------------------------
  // A separator cuts the input into independent parts.

  lemma {:induction false} SplitConcat(x: string, c: char, y: string)
    requires IsSeparator(c)
    ensures Split(x + [c] + y) == Split(x) + Split(y)
  {
    var s := x + [c] + y;
    if x == [] {
      assert s[0] == c && s[1..] == y;
      assert Split(s) == [[]] + Split(y);
      assert Split(x) == [[]];
    } else {
      assert s[0] == x[0] && s[1..] == x[1..] + [c] + y;
      SplitConcat(x[1..], c, y);
      var rest := Split(x[1..]);
      assert Split(s[1..]) == rest + Split(y);
      if IsSeparator(x[0]) {
        assert Split(s) == [[]] + Split(s[1..]);
        assert Split(x) == [[]] + rest;
      } else {
        assert Split(s) == [[x[0]] + Split(s[1..])[0]] + Split(s[1..])[1..];
        assert Split(x) == [[x[0]] + rest[0]] + rest[1..];
        assert Split(s[1..])[0] == rest[0];
        assert Split(s[1..])[1..] == rest[1..] + Split(y);
      }
    }
  }

  lemma {:induction false} LowerConcat(x: string, y: string)
    ensures Lower(x + y) == Lower(x) + Lower(y)
  {
    forall k | 0 <= k < |x + y| ensures Lower(x + y)[k] == (Lower(x) + Lower(y))[k] {
      if k < |x| {
        assert (x + y)[k] == x[k];
      } else {
        assert (x + y)[k] == y[k - |x|];
      }
    }
  }

  lemma TrimAllConcat(p: seq<string>, q: seq<string>)
    ensures TrimAll(p + q) == TrimAll(p) + TrimAll(q)
  {
    var l, r := TrimAll(p + q), TrimAll(p) + TrimAll(q);
    forall i | 0 <= i < |l| ensures l[i] == r[i] {
      if i < |p| {
        assert (p + q)[i] == p[i];
      } else {
        assert (p + q)[i] == q[i - |p|];
      }
    }
  }

  lemma {:induction false} NonEmptyOnlyConcat(p: seq<string>, q: seq<string>)
    ensures NonEmptyOnly(p + q) == NonEmptyOnly(p) + NonEmptyOnly(q)
  {
    if p == [] {
      assert p + q == q;
    } else {
      var pq := p + q;
      assert pq != [] && pq[0] == p[0] && pq[1..] == p[1..] + q;
      NonEmptyOnlyConcat(p[1..], q);
      if p[0] == [] {
        assert NonEmptyOnly(pq) == NonEmptyOnly(p[1..] + q);
        assert NonEmptyOnly(p) == NonEmptyOnly(p[1..]);
      } else {
        assert NonEmptyOnly(pq) == [p[0]] + NonEmptyOnly(p[1..] + q);
        assert NonEmptyOnly(p) == [p[0]] + NonEmptyOnly(p[1..]);
      }
    }
  }

  /** The symptoms of text joined by a comma or semicolon are the symptoms
      of each part, in order. */
  lemma NormaliseAtSeparator(x: string, c: char, y: string)
    requires IsSeparator(c)
    ensures Normalise(x + [c] + y) == Normalise(x) + Normalise(y)
  {
    LowerConcat(x + [c], y);
    LowerConcat(x, [c]);
    assert Lower([c]) == [c];
    SplitConcat(Lower(x), c, Lower(y));
    TrimAllConcat(Split(Lower(x)), Split(Lower(y)));
    NonEmptyOnlyConcat(TrimAll(Split(Lower(x))), TrimAll(Split(Lower(y))));
  }

  /** Text without a separator yields at most one symptom: itself, lower-cased
      and trimmed, unless that leaves nothing. */
  lemma NormalisePiece(w: string)
    requires NoSeparator(w)
    ensures Normalise(w) == if Trim(Lower(w)) == [] then [] else [Trim(Lower(w))]
  {
    var l := Lower(w);
    forall k | 0 <= k < |l| ensures !IsSeparator(l[k]) {
      if IsAsciiUpper(w[k]) {
        assert 'a' <= l[k] <= 'z';
      }
    }
    SplitNoSeparator(l);
    var t := TrimAll([l]);
    assert t == [Trim(l)];
    assert NonEmptyOnly(t) == if Trim(l) == [] then [] else [Trim(l)] by {
      assert t[1..] == [];
    }
  }

  /** Lower-casing leaves text without upper-case letters unchanged. */
  lemma LowerNoUpper(s: string)
    requires NoUpper(s)
    ensures Lower(s) == s
  {
    forall k | 0 <= k < |s| ensures Lower(s)[k] == s[k] {
      assert !IsAsciiUpper(s[k]);
    }
  }

  /** Trimming leaves text without surrounding whitespace unchanged. */
  lemma TrimNoSurroundingSpace(t: string)
    requires t != [] && !IsSpace(t[0]) && !IsSpace(t[|t| - 1])
    ensures Trim(t) == t
  {
    assert TrimStart(t) == t;
  }

  /** A single token normalises to itself. */
  lemma TokenNormalises(t: string)
    requires IsToken(t)
    ensures Normalise(t) == [t]
  {
    NormalisePiece(t);
    LowerNoUpper(t);
    TrimNoSurroundingSpace(t);
  }

  /** Symptom tokens joined by commas or semicolons normalise back to
      exactly those tokens: the normaliser and joining are inverses on
      well-formed lists. */
  lemma {:induction false} NormaliseJoined(tokens: seq<string>, seps: string)
    requires |tokens| == |seps| + 1
    requires forall i :: 0 <= i < |tokens| ==> IsToken(tokens[i])
    requires forall k :: 0 <= k < |seps| ==> IsSeparator(seps[k])
    ensures Normalise(Interleave(tokens, seps)) == tokens
  {
    var t := tokens[0];
    TokenNormalises(t);
    if seps != [] {
      NormaliseJoined(tokens[1..], seps[1..]);
      NormaliseAtSeparator(t, seps[0], Interleave(tokens[1..], seps[1..]));
      assert tokens == [t] + tokens[1..];
    }
  }

  /** A separator-free piece whose lower-cased form is a token padded with
      whitespace yields exactly that token. */
  lemma NormalisePadded(w: string, p: string, t: string, q: string)
    requires NoSeparator(w) && Lower(w) == p + t + q
    requires AllSpace(p) && AllSpace(q) && IsToken(t)
    ensures Normalise(w) == [t]
  {
    NormalisePiece(w);
    TrimPadded(p, t, q);
  }

  /** A piece that yields one token, a separator, then text that yields
      `ts`: the token comes first, followed by `ts`. */
  lemma NormaliseCons(a: string, sep: char, rest: string, ta: string, ts: seq<string>)
    requires IsSeparator(sep) && Normalise(a) == [ta] && Normalise(rest) == ts
    ensures Normalise(a + [sep] + rest) == [ta] + ts
  {
    NormaliseAtSeparator(a, sep, rest);
  }

  /** The tail of the worked example, over abstract pieces: a piece padded
      on both sides, a semicolon, and a piece padded in front. */
  lemma ExampleTail(rest: string, b: string, c: string, tb: string, tc: string)
    requires rest == b + [';'] + c
    requires NoSeparator(b) && NoSeparator(c) && IsToken(tb) && IsToken(tc)
    requires Lower(b) == " " + tb + " " && Lower(c) == " " + tc + []
    ensures Normalise(rest) == [tb, tc]
  {
    NormalisePadded(b, " ", tb, " ");
    NormalisePadded(c, " ", tc, []);
    NormaliseCons(b, ';', c, tb, [tc]);
  }

  /** The head of the worked example, over abstract pieces: an unpadded
      piece, a comma, and text that yields `ts`. */
  lemma ExampleHead(w: string, a: string, rest: string, ta: string, ts: seq<string>)
    requires w == a + [','] + rest
    requires NoSeparator(a) && IsToken(ta) && Lower(a) == [] + ta + []
    requires Normalise(rest) == ts
    ensures Normalise(w) == [ta] + ts
  {
    NormalisePadded(a, [], ta, []);
    NormaliseCons(a, ',', rest, ta, ts);
  }

  /** The three symptom tokens of the worked example are well formed. */
  lemma ExampleTokens()
    ensures IsToken("fever") && IsToken("headache") && IsToken("sore throat")
  {
  }

  /** `toLowerCase` on the pieces of the worked example. */
  lemma LowerFever(a: string)
    requires a == "Fever"
    ensures Lower(a) == [] + "fever" + [] && NoSeparator(a)
  {
  }

  lemma LowerHeadache(b: string)
    requires b == " Headache "
    ensures Lower(b) == " " + "headache" + " " && NoSeparator(b)
  {
  }

  lemma LowerSoreThroat(c: string)
    requires c == " sore throat"
    ensures Lower(c) == " " + "sore throat" + [] && NoSeparator(c)
  {
    LowerNoUpper(c);
  }

  /** The worked example's shape, over abstract pieces: an unpadded piece,
      a comma, a piece padded on both sides, a semicolon and a piece padded
      in front. */
  lemma ExampleShape(w: string, a: string, b: string, c: string,
                     ta: string, tb: string, tc: string)
    requires w == a + [','] + (b + [';'] + c)
    requires NoSeparator(a) && NoSeparator(b) && NoSeparator(c)
    requires IsToken(ta) && IsToken(tb) && IsToken(tc)
    requires Lower(a) == [] + ta + [] && Lower(b) == " " + tb + " " && Lower(c) == " " + tc + []
    ensures Normalise(w) == [ta, tb, tc]
  {
    var rest := b + [';'] + c;
    ExampleTail(rest, b, c, tb, tc);
    ExampleHead(w, a, rest, ta, [tb, tc]);
  }

  /** Where the worked example's input is cut. */
  lemma ExampleCut(w: string)
    requires w == "Fever, Headache ; sore throat"
    ensures w == "Fever" + [','] + (" Headache " + [';'] + " sore throat")
  {
    var joined := "Fever" + [','] + (" Headache " + [';'] + " sore throat");
    assert |joined| == |w|;
    forall k | 0 <= k < |w| ensures w[k] == joined[k] {
    }
  }

  /** The worked example: "Fever, Headache ; sore throat" is sent as the
      symptoms "fever", "headache" and "sore throat". */
  lemma NormaliseExample(w: string)
    requires w == "Fever, Headache ; sore throat"
    ensures Normalise(w) == ["fever", "headache", "sore throat"]
  {
    var a, b, c := "Fever", " Headache ", " sore throat";
    ExampleCut(w);
    ExampleTokens();
    LowerFever(a);
    LowerHeadache(b);
    LowerSoreThroat(c);
    ExampleShape(w, a, b, c, "fever", "headache", "sore throat");
  }
}
