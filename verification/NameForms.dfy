/** What the printers of module SpaceNames print, said of the text: where each piece stands in it,
    when it is a range, and how words and range keys read. */
module NameForms {
  import opened Basics
  import opened DedupKey
  import opened SpaceNames

  // -------------------------------------------------------------------------- words

  predicate Plain(w: string) { w != "" && forall c | c in w :: c !in SPACES }

  /** The characters that are not spaces. */
  function Letters(s: string): string {
    if s == "" then "" else (if s[0] in SPACES then "" else [s[0]]) + Letters(s[1..])
  }

  function Concat(words: seq<string>): string { if words == [] then "" else words[0] + Concat(words[1..]) }

  lemma {:induction false} FirstWordPlain(s: string)
    ensures forall c | c in FirstWord(s) :: c !in SPACES
  {
    if s != "" && s[0] !in SPACES {
      FirstWordPlain(s[1..]);
    }
  }

  lemma {:induction false} FirstWordLetters(s: string)
    ensures Letters(s) == FirstWord(s) + Letters(s[|FirstWord(s)|..])
  {
    if s == "" || s[0] in SPACES {
      assert s[0..] == s;
    } else {
      var w := FirstWord(s[1..]);
      FirstWordLetters(s[1..]);
      assert s[|w| + 1..] == s[1..][|w|..];
      assert [s[0]] + (w + Letters(s[|w| + 1..])) == ([s[0]] + w) + Letters(s[|w| + 1..]);
    }
  }

  /** A name's words are non-empty and hold no space, and lose no other character. */
  lemma {:induction false} WordsRead(s: string)
    ensures forall w | w in Words(s) :: Plain(w)
    ensures Concat(Words(s)) == Letters(s)
    decreases |s|
  {
    if s != "" {
      if s[0] in SPACES {
        WordsRead(s[1..]);
      } else {
        var w := FirstWord(s);
        FirstWordPlain(s);
        FirstWordLetters(s);
        WordsRead(s[|w|..]);
        assert ([w] + Words(s[|w|..]))[1..] == Words(s[|w|..]);
      }
    }
  }

  lemma {:induction false} FirstWordOf(w: string, rest: string)
    requires (forall c | c in w :: c !in SPACES) && (rest == "" || rest[0] in SPACES)
    ensures FirstWord(w + rest) == w
  {
    if w == "" {
      assert w + rest == rest;
    } else {
      assert (w + rest)[1..] == w[1..] + rest;
      assert w[0] in w && forall c | c in w[1..] :: c in w;
      FirstWordOf(w[1..], rest);
    }
  }

  /** And any words, spaced, are the words of their text. */
  lemma {:induction false} WordsOfJoin(words: seq<string>)
    requires forall w | w in words :: Plain(w)
    ensures Words(Join(words, " ")) == words
  {
    if words != [] {
      var w, text := words[0], Join(words, " ");
      assert w in words && w[0] in w;
      if |words| == 1 {
        assert w + "" == w;
        FirstWordOf(w, "");
        assert text[|w|..] == "";
      } else {
        var rest := Join(words[1..], " ");
        assert text == w + (" " + rest);
        FirstWordOf(w, " " + rest);
        assert forall v | v in words[1..] :: v in words;
        WordsOfJoin(words[1..]);
        assert text[|w|..] == " " + rest && (" " + rest)[1..] == rest;
      }
    }
  }

  // --------------------------------------------------------------------- range keys

  lemma {:induction false} DecimalReads(n: nat)
    ensures AllDigits(Decimal(n)) && ToNat(Decimal(n)) == n
  {
    if n < 10 {
      assert Decimal(n)[..0] == "";
    } else {
      DecimalReads(n / 10);
      assert Decimal(n)[..|Decimal(n)| - 1] == Decimal(n / 10);
    }
  }

  /** A decimal numeral's key is its number; a letter's is the same in either case. */
  lemma KeysOfTails(n: nat, i: nat)
    requires i < 26
    ensures RangeKey(Decimal(n)) == Some(Number(n))
    ensures RangeKey([('a' as int + i) as char]) == RangeKey([('A' as int + i) as char]) == Some(Letter('A' as int + i))
  {
    DecimalReads(n);
  }

  // -------------------------------------------------------------- where pieces stand

  /** Where the i-th piece starts in a text of pieces and separators. */
  function Offset(pieces: seq<string>, sep: string, i: nat): nat
    requires i <= |pieces|
  {
    if i == 0 then 0 else Offset(pieces, sep, i - 1) + |pieces[i - 1]| + |sep|
  }

  predicate StandsAt(text: string, at: nat, piece: string) {
    at + |piece| <= |text| && text[at..at + |piece|] == piece
  }

  /** The text is the pieces in order with a separator between each two, and nothing more. */
  predicate Lists(text: string, pieces: seq<string>, sep: string) {
    && |text| + |sep| == Offset(pieces, sep, |pieces|)
    && (forall i | 0 <= i < |pieces| :: PieceAt(text, pieces, sep, i))
  }

  predicate PieceAt(text: string, pieces: seq<string>, sep: string, i: nat)
    requires i < |pieces|
  {
    var at := Offset(pieces, sep, i);
    StandsAt(text, at, pieces[i]) && (i > 0 ==> at >= |sep| && StandsAt(text, at - |sep|, sep))
  }

  lemma {:induction false} OffsetOfRest(pieces: seq<string>, sep: string, i: nat)
    requires 0 < i <= |pieces|
    ensures Offset(pieces, sep, i) == |pieces[0]| + |sep| + Offset(pieces[1..], sep, i - 1)
  {
    if i > 1 { OffsetOfRest(pieces, sep, i - 1); }
  }

  lemma StandsLater(front: string, rest: string, text: string, at: nat, piece: string)
    requires text == front + rest && StandsAt(rest, at, piece)
    ensures StandsAt(text, |front| + at, piece)
  {
    assert text[|front| + at..|front| + at + |piece|] == rest[at..at + |piece|];
  }

  /** A piece and a separator before a listing, at one of the later pieces. */
  lemma LaterPiece(front: string, rest: string, text: string, pieces: seq<string>, sep: string, i: nat)
    requires text == front + rest && pieces != [] && Lists(rest, pieces[1..], sep) && 0 < i < |pieces|
    requires |front| == |pieces[0]| + |sep| && StandsAt(text, |pieces[0]|, sep)
    ensures PieceAt(text, pieces, sep, i)
  {
    var at := Offset(pieces[1..], sep, i - 1);
    OffsetOfRest(pieces, sep, i);
    assert PieceAt(rest, pieces[1..], sep, i - 1);
    StandsLater(front, rest, text, at, pieces[i]);
    if i > 1 {
      StandsLater(front, rest, text, at - |sep|, sep);
    } else {
      assert at == 0;
    }
  }

  lemma FrontStands(piece: string, sep: string, rest: string)
    ensures var text := piece + sep + rest;
            text == (piece + sep) + rest && StandsAt(text, 0, piece) && StandsAt(text, |piece|, sep)
  {
  }

  lemma ListsMore(front: string, rest: string, text: string, pieces: seq<string>, sep: string)
    requires text == front + rest && |pieces| > 1 && Lists(rest, pieces[1..], sep)
    requires |front| == |pieces[0]| + |sep| && StandsAt(text, 0, pieces[0]) && StandsAt(text, |pieces[0]|, sep)
    ensures Lists(text, pieces, sep)
  {
    OffsetOfRest(pieces, sep, |pieces|);
    forall i | 0 <= i < |pieces|
      ensures PieceAt(text, pieces, sep, i)
    {
      if i > 0 { LaterPiece(front, rest, text, pieces, sep, i); }
    }
  }

  lemma {:induction false} JoinLists(pieces: seq<string>, sep: string)
    requires pieces != []
    ensures Lists(Join(pieces, sep), pieces, sep)
  {
    if |pieces| == 1 {
      assert Offset(pieces, sep, 1) == Offset(pieces, sep, 0) + |pieces[0]| + |sep|;
    } else {
      JoinLists(pieces[1..], sep);
      FrontStands(pieces[0], sep, Join(pieces[1..], sep));
      ListsMore(pieces[0] + sep, Join(pieces[1..], sep), Join(pieces, sep), pieces, sep);
    }
  }

  /** The name with no ranges, for any names: nothing, the one name, the names with " + " between,
      or the shared words, a space, and the tails with "/" between. */
  lemma CombinedNameLists(names: seq<string>)
    ensures var text := CombinedName(names);
            if names == [] then text == ""
            else if |names| == 1 then text == names[0]
            else match SplitShared(names)
                 case None => Lists(text, names, " + ")
                 case Some(split) =>
                   && split.prefix + " " <= text
                   && Lists(text[|split.prefix| + 1..], split.tails, "/")
  {
    if |names| > 1 {
      var split := SplitShared(names);
      if split.None? {
        JoinLists(names, " + ");
      } else {
        JoinLists(split.value.tails, "/");
        AfterPrefix(split.value.prefix, Join(split.value.tails, "/"));
      }
    }
  }

  lemma NotSum(s: string)
    requires |s| > 1 ==> s[1] != '+'
    ensures !StartsWith(s, " + ")
  {
    assert |s| >= 3 ==> s[..3][1] == s[1];
  }

  lemma {:induction false} FieldsOfSum(piece: string, rest: string)
    requires '+' !in piece
    ensures Fields(piece + " + " + rest, " + ") == [piece] + Fields(rest, " + ")
  {
    var s := piece + " + " + rest;
    if piece == "" {
      assert s[..3] == " + " && s[3..] == rest;
    } else {
      assert s[1..] == piece[1..] + " + " + rest;
      assert s[1] == (if |piece| > 1 then piece[1] else ' ');
      assert |piece| > 1 ==> piece[1] in piece;
      NotSum(s);
      FieldsOfSum(piece[1..], rest);
      assert [piece[0]] + piece[1..] == piece;
      assert ([piece[1..]] + Fields(rest, " + "))[1..] == Fields(rest, " + ");
    }
  }

  lemma {:induction false} FieldsOfOneSum(piece: string)
    requires '+' !in piece
    ensures Fields(piece, " + ") == [piece]
  {
    if piece != "" {
      assert |piece| > 1 ==> piece[1] in piece;
      NotSum(piece);
      FieldsOfOneSum(piece[1..]);
      assert [piece[0]] + piece[1..] == piece;
    }
  }

  lemma {:induction false} FieldsOfSums(names: seq<string>)
    requires names != [] && forall name | name in names :: '+' !in name
    ensures Fields(Join(names, " + "), " + ") == names
  {
    assert names[0] in names;
    if |names| == 1 {
      FieldsOfOneSum(names[0]);
    } else {
      assert forall name | name in names[1..] :: name in names;
      FieldsOfSums(names[1..]);
      FieldsOfSum(names[0], Join(names[1..], " + "));
    }
  }

  /** Names that share no words, and hold no plus sign, read back from their sum; tails that hold
      no slash, with or without keys, read back from theirs. */
  lemma CombinedNameReads(names: seq<string>)
    requires |names| > 1
    ensures match SplitShared(names)
            case None => (forall name | name in names :: '+' !in name) ==> Fields(CombinedName(names), " + ") == names
            case Some(split) =>
              (forall tail | tail in split.tails :: '/' !in tail) ==>
                Fields(CombinedName(names)[|split.prefix| + 1..], "/") == split.tails
  {
    var split := SplitShared(names);
    if split.None? {
      if forall name | name in names :: '+' !in name { FieldsOfSums(names); }
    } else {
      AfterPrefix(split.value.prefix, Join(split.value.tails, "/"));
      if forall tail | tail in split.value.tails :: '/' !in tail { FieldsOfJoin(split.value.tails, "/"); }
    }
  }

  // ---------------------------------------------------------------- when it is a range

  /** Three tails in a row, each one more than the one before. */
  predicate Triple(tails: seq<string>, i: nat) {
    i + 2 < |tails| && Follows(tails[i], tails[i + 1]) && Follows(tails[i + 1], tails[i + 2])
  }

  /** The last run's length, as far as it matters. */
  predicate LastRun(tails: seq<string>, length: nat) {
    var n := |tails|;
    && (length >= 2 <==> n >= 2 && Follows(tails[n - 2], tails[n - 1]))
    && (length >= 3 <==> n >= 3 && Triple(tails, n - 3))
  }

  ghost predicate NoTriple(tails: seq<string>) { forall i: nat :: !Triple(tails, i) }

  lemma NoTripleMore(past: seq<string>, t: string)
    ensures NoTriple(past + [t]) <==> NoTriple(past) && !(|past| >= 2 && Triple(past + [t], |past| - 2))
  {
    var tails := past + [t];
    assert forall i: nat | i + 2 < |past| :: Triple(past, i) <==> Triple(tails, i);
  }

  lemma LastRunMore(past: seq<string>, t: string, length: nat)
    requires past == [] || (length > 0 && LastRun(past, length))
    ensures var joins := past != [] && Follows(Last(past), t);
            LastRun(past + [t], if joins then length + 1 else 1)
  {
    var tails := past + [t];
    assert |past| >= 2 ==> tails[|past| - 2] == past[|past| - 2];
  }

  lemma {:induction false} RunsTriple(tails: seq<string>)
    requires Keyed(tails)
    ensures EndsRight(tails, Runs(tails))
  {
    if tails != [] {
      var past, t := tails[..|tails| - 1], tails[|tails| - 1];
      assert forall x | x in past :: x in tails;
      assert tails == past + [t];
      RunsTriple(past);
      RunsOfMore(past, t);
      EndsRightMore(past, t, Runs(past));
    }
  }

  /** How the runs of these tails end, and whether all are short. */
  ghost predicate EndsRight(tails: seq<string>, runs: seq<seq<string>>) {
    && (tails != [] ==> runs != [] && Last(runs) != [] && LastRun(tails, |Last(runs)|))
    && (AllShort(runs) <==> NoTriple(tails))
  }

  lemma EndsRightMore(past: seq<string>, t: string, runs: seq<seq<string>>)
    requires EndsRight(past, runs)
    ensures EndsRight(past + [t], Extended(runs, past != [] && Follows(Last(past), t), t))
  {
    NoTripleMore(past, t);
    LastRunMore(past, t, if past == [] then 0 else |Last(runs)|);
    ExtendedLengths(runs, past != [] && Follows(Last(past), t), t);
  }

  lemma ExtendedLengths(runs: seq<seq<string>>, joins: bool, t: string)
    requires joins ==> runs != []
    ensures var runs' := Extended(runs, joins, t);
            && |Last(runs')| == (if joins then |Last(runs)| + 1 else 1)
            && (AllShort(runs') <==> AllShort(runs) && |Last(runs')| < 3)
  {
  }

  /** A ranged name shows a range exactly when three consecutive tails stand in a row; otherwise
      its tails stand between slashes. */
  lemma RangeShownExactly(tails: seq<string>)
    requires |tails| >= 2 && Keyed(tails)
    ensures '-' in TailText(tails) <==> !NoTriple(tails)
    ensures '/' in TailText(tails) <==> NoTriple(tails)
  {
    RunsTriple(tails);
    RunsPartition(tails);
    var runs := Runs(tails);
    if AllShort(runs) {
      forall t | t in tails
        ensures '-' !in t
      {
        KeyedIsPlain(t);
      }
      NoDash(tails, "/");
      assert Join(tails, "/")[|tails[0]|] == '/';
    } else {
      PiecesArePlain(runs);
      NoSlash(Pieces(runs));
      SomeDash(runs);
    }
  }

  lemma {:induction false} NoDash(pieces: seq<string>, sep: string)
    requires '-' !in sep && forall p | p in pieces :: '-' !in p
    ensures '-' !in Join(pieces, sep)
  {
    if pieces != [] {
      assert pieces[0] in pieces;
      assert forall p | p in pieces[1..] :: p in pieces;
      NoDash(pieces[1..], sep);
    }
  }

  lemma {:induction false} SomeDash(runs: seq<seq<string>>)
    requires !AllShort(runs) && forall run | run in runs :: run != []
    ensures exists p | p in Pieces(runs) :: '-' in p
    ensures '-' in Join(Pieces(runs), ", ")
  {
    if |runs[0]| >= 3 {
      var p := runs[0][0] + "-" + Last(runs[0]);
      assert p[|runs[0][0]|] == '-';
      assert p in Pieces(runs);
    } else {
      assert forall run | run in runs[1..] :: run in runs;
      assert !AllShort(runs[1..]);
      SomeDash(runs[1..]);
      var p :| p in Pieces(runs[1..]) && '-' in p;
      assert p in Pieces(runs);
    }
    JoinKeeps(Pieces(runs), ", ");
  }

  lemma {:induction false} JoinKeeps(pieces: seq<string>, sep: string)
    ensures forall p, c | p in pieces && c in p :: c in Join(pieces, sep)
  {
    if |pieces| > 1 {
      JoinKeeps(pieces[1..], sep);
      forall p, c | p in pieces && c in p
        ensures c in Join(pieces, sep)
      {
        if p != pieces[0] { assert p in pieces[1..]; }
      }
    }
  }
}
