/** Names of combined spaces in app/models/spaces.py: the shared words, the differing tails, and
    the printer that shows runs of three or more consecutive tails as ranges. */
module SpaceNames {
  import opened Basics

  // ------------------------------------------------------------------------- words

  const SPACES: set<char> := {
    '\t', '\n', '\r', ' ', '\U{000B}', '\U{000C}', '\U{001C}', '\U{001D}', '\U{001E}', '\U{001F}', '\U{0085}',
    '\U{00A0}',
    '\U{1680}', '\U{2000}', '\U{2001}', '\U{2002}', '\U{2003}', '\U{2004}', '\U{2005}', '\U{2006}', '\U{2007}',
    '\U{2008}', '\U{2009}', '\U{200A}', '\U{2028}', '\U{2029}', '\U{202F}', '\U{205F}', '\U{3000}' }

  /** The leading run of non-space characters. */
  function FirstWord(s: string): (w: string)
    ensures |w| <= |s| && w == s[..|w|]
  {
    if s == "" || s[0] in SPACES then "" else [s[0]] + FirstWord(s[1..])
  }

  /** str.split with no argument. */
  function Words(s: string): seq<string>
    decreases |s|
  {
    if s == "" then []
    else if s[0] in SPACES then Words(s[1..])
    else [FirstWord(s)] + Words(s[|FirstWord(s)|..])
  }

  function Join(pieces: seq<string>, sep: string): string {
    if pieces == [] then ""
    else if |pieces| == 1 then pieces[0]
    else pieces[0] + sep + Join(pieces[1..], sep)
  }

  // ----------------------------------------------------------------- shared prefix

  /** The first n words of all the lists agree. */
  predicate Agree(lists: seq<seq<string>>, n: nat) {
    lists != [] && n <= |lists[0]| && forall l | l in lists :: n <= |l| && l[..n] == lists[0][..n]
  }

  /** The length of the longest common prefix that is at least n long. */
  function Shared(lists: seq<seq<string>>, n: nat): (shared: nat)
    requires Agree(lists, n)
    ensures Agree(lists, shared) && !Agree(lists, shared + 1)
    decreases |lists[0]| - n
  {
    if Agree(lists, n + 1) then Shared(lists, n + 1) else n
  }

  lemma {:induction false} AgreeLess(lists: seq<seq<string>>, m: nat, n: nat)
    requires m <= n && Agree(lists, n)
    ensures Agree(lists, m)
  {
    forall l | l in lists
      ensures l[..m] == lists[0][..m]
    {
      assert l[..n][..m] == l[..m];
    }
  }

  /** No longer prefix is common. */
  lemma SharedIsLongest(lists: seq<seq<string>>, n: nat)
    requires Agree(lists, 0)
    ensures Agree(lists, n) <==> n <= Shared(lists, 0)
  {
    var shared := Shared(lists, 0);
    if Agree(lists, n) && n > shared { AgreeLess(lists, shared + 1, n); }
    if n <= shared { AgreeLess(lists, n, shared); }
  }

  function WordLists(names: seq<string>): seq<seq<string>> {
    seq(|names|, i requires 0 <= i < |names| => Words(names[i]))
  }

  datatype Split = Split(prefix: string, tails: seq<string>)

  /** _split_shared_prefix: none when no word is shared or some name is all prefix. */
  function SplitShared(names: seq<string>): Option<Split>
    requires names != []
  {
    var lists := WordLists(names);
    var n := Shared(lists, 0);
    if n == 0 || exists l | l in lists :: |l| == n then None
    else Some(Split(Join(lists[0][..n], " "), Tails(lists, n)))
  }

  function Tails(lists: seq<seq<string>>, n: nat): seq<string>
    requires Agree(lists, n)
  {
    seq(|lists|, i requires 0 <= i < |lists| => Join(lists[i][n..], " "))
  }

  method SplitSharedPrefix(names: seq<string>) returns (split: Option<Split>)
    requires names != []
    ensures split == SplitShared(names)
  {
    var lists := WordLists(names);
    var shared, shortest := SharedWords(lists);
    if shared == 0 || shared == shortest {
      return None;
    }
    split := Some(Split(Join(lists[0][..shared], " "), Tails(lists, shared)));
  }

  /** The counter of _split_shared_prefix, and the length of the shortest name. */
  method SharedWords(lists: seq<seq<string>>) returns (shared: nat, shortest: nat)
    requires lists != []
    ensures Agree(lists, 0) && shared == Shared(lists, 0)
    ensures (exists l | l in lists :: |l| == shared) <==> shared == shortest
  {
    shortest := Shortest(lists);
    shared := 0;
    while shared < shortest && forall l | l in lists :: l[shared] == lists[0][shared]
      invariant shared <= shortest && Agree(lists, shared) && Shared(lists, 0) == Shared(lists, shared)
      decreases shortest - shared
    {
      AgreeOneMore(lists, shared);
      shared := shared + 1;
    }
    AgreeStops(lists, shared, shortest);
  }

  method Shortest(lists: seq<seq<string>>) returns (shortest: nat)
    requires lists != []
    ensures (exists l | l in lists :: |l| == shortest) && forall l | l in lists :: shortest <= |l|
  {
    shortest := |lists[0]|;
    for i := 1 to |lists|
      invariant exists l | l in lists :: |l| == shortest
      invariant forall k | 0 <= k < i :: shortest <= |lists[k]|
    {
      if |lists[i]| < shortest {
        shortest := |lists[i]|;
        assert lists[i] in lists;
      }
    }
  }

  lemma AgreeOneMore(lists: seq<seq<string>>, n: nat)
    requires Agree(lists, n) && n < |lists[0]| && forall l | l in lists :: n < |l| && l[n] == lists[0][n]
    ensures Agree(lists, n + 1)
  {
    forall l | l in lists
      ensures l[..n + 1] == lists[0][..n + 1]
    {
      assert l[..n + 1] == l[..n] + [l[n]];
      assert lists[0][..n + 1] == lists[0][..n] + [lists[0][n]];
    }
  }

  lemma AgreeStops(lists: seq<seq<string>>, n: nat, shortest: nat)
    requires Agree(lists, n) && n <= shortest
    requires (exists l | l in lists :: |l| == shortest) && forall l | l in lists :: shortest <= |l|
    requires n < shortest ==> n < |lists[0]| && exists l | l in lists :: n < |l| && l[n] != lists[0][n]
    ensures !Agree(lists, n + 1)
    ensures (exists l | l in lists :: |l| == n) <==> n == shortest
  {
    if n < shortest {
      var l :| l in lists && n < |l| && l[n] != lists[0][n];
      assert l[..n + 1][n] == l[n] && lists[0][..n + 1][n] == lists[0][n];
    }
  }

  // ---------------------------------------------------------------------- range keys

  datatype Key = Number(n: nat) | Letter(code: nat)

  predicate IsLetter(c: char) { 'a' <= c <= 'z' || 'A' <= c <= 'Z' }

  function ToNat(s: string): nat
    requires AllDigits(s)
  {
    if s == "" then 0 else 10 * ToNat(s[..|s| - 1]) + (s[|s| - 1] as int - '0' as int)
  }

  function Upper(c: char): nat { if 'a' <= c <= 'z' then c as int - 32 else c as int }

  /** _range_key, for the tails ASCII can spell. */
  function RangeKey(tail: string): Option<Key> {
    if tail != "" && AllDigits(tail) then Some(Number(ToNat(tail)))
    else if |tail| == 1 && IsLetter(tail[0]) then Some(Letter(Upper(tail[0])))
    else None
  }

  predicate Keyed(tails: seq<string>) { forall t | t in tails :: RangeKey(t).Some? }

  function Keys(tails: seq<string>): (keys: seq<Key>)
    requires Keyed(tails)
    ensures |keys| == |tails| && forall i | 0 <= i < |tails| :: keys[i] == RangeKey(tails[i]).value
  {
    seq(|tails|, i requires 0 <= i < |tails| => RangeKey(tails[i]).value)
  }

  function Shift(k: Key, d: nat): Key {
    match k
    case Number(n) => Number(n + d)
    case Letter(c) => Letter(c + d)
  }

  predicate Follows(a: string, b: string) { RangeKey(a).Some? && RangeKey(b) == Some(Shift(RangeKey(a).value, 1)) }

  // ---------------------------------------------------------------------------- runs

  /** Consecutive tails, each one more than the one before. */
  predicate Chain(run: seq<string>) {
    run != [] && forall i | 0 < i < |run| :: Follows(run[i - 1], run[i])
  }

  function Flatten(runs: seq<seq<string>>): seq<string> { if runs == [] then [] else runs[0] + Flatten(runs[1..]) }

  /** The runs cut the tails, in order, into chains that cannot be extended. */
  ghost predicate IsRunPartition(runs: seq<seq<string>>, tails: seq<string>) {
    && Flatten(runs) == tails
    && (forall i | 0 <= i < |runs| :: Keyed(runs[i]) && Chain(runs[i]))
    && (forall i | 0 < i < |runs| :: !Follows(Last(runs[i - 1]), runs[i][0]))
  }

  function Runs(tails: seq<string>): (runs: seq<seq<string>>)
    requires Keyed(tails)
    ensures runs == [] <==> tails == []
  {
    if tails == [] then []
    else
      var n := |tails| - 1;
      assert forall t | t in tails[..n] :: t in tails;
      Extended(Runs(tails[..n]), n > 0 && Follows(tails[n - 1], tails[n]), tails[n])
  }

  /** A tail that follows the one before joins the last run; any other starts a run. */
  function Extended(runs: seq<seq<string>>, joins: bool, t: string): (runs': seq<seq<string>>)
    requires joins ==> runs != []
    ensures runs' != []
  {
    if joins then runs[..|runs| - 1] + [runs[|runs| - 1] + [t]] else runs + [[t]]
  }

  lemma {:induction false} FlattenAppend(runs: seq<seq<string>>, run: seq<string>)
    ensures Flatten(runs + [run]) == Flatten(runs) + run
  {
    if runs != [] {
      assert (runs + [run])[1..] == runs[1..] + [run];
      FlattenAppend(runs[1..], run);
    }
  }

  /** A partition whose last run ends with the last tail. */
  ghost predicate Cut(runs: seq<seq<string>>, tails: seq<string>) {
    && IsRunPartition(runs, tails)
    && if tails == [] then runs == [] else runs != [] && Last(runs[|runs| - 1]) == Last(tails)
  }

  /** One more tail extends the last run or starts a new one. */
  lemma PartitionStep(runs: seq<seq<string>>, tails: seq<string>, t: string)
    requires Cut(runs, tails) && RangeKey(t).Some?
    ensures Cut(Extended(runs, tails != [] && Follows(Last(tails), t), t), tails + [t])
  {
    if tails != [] && Follows(Last(tails), t) {
      var front, run := runs[..|runs| - 1], runs[|runs| - 1];
      assert runs == front + [run];
      RunJoined(front, run, tails, t);
    } else {
      RunStarted(runs, tails, t);
    }
  }

  lemma RunStarted(runs: seq<seq<string>>, tails: seq<string>, t: string)
    requires Cut(runs, tails) && RangeKey(t).Some?
    requires tails != [] ==> !Follows(Last(tails), t)
    ensures Cut(runs + [[t]], tails + [t])
  {
    var runs' := runs + [[t]];
    FlattenAppend(runs, [t]);
    assert runs'[|runs|] == [t];
    assert Chain([t]) && Keyed([t]);
    forall i | 0 <= i < |runs|
      ensures runs'[i] == runs[i]
    {
    }
  }

  lemma RunJoined(front: seq<seq<string>>, run: seq<string>, tails: seq<string>, t: string)
    requires run != [] && Cut(front + [run], tails) && Follows(Last(run), t) && RangeKey(t).Some?
    ensures Cut(front + [run + [t]], tails + [t])
  {
    var runs, runs' := front + [run], front + [run + [t]];
    FlattenAppend(front, run);
    FlattenAppend(front, run + [t]);
    assert (Flatten(front) + run) + [t] == Flatten(front) + (run + [t]);
    assert runs[|front|] == run && runs'[|front|] == run + [t];
    assert Chain(run + [t]) && Keyed(run + [t]);
    forall i | 0 <= i < |front|
      ensures runs'[i] == runs[i]
    {
    }
  }

  lemma RunsOfMore(past: seq<string>, t: string)
    requires Keyed(past + [t]) && Keyed(past)
    ensures Runs(past + [t]) == Extended(Runs(past), past != [] && Follows(Last(past), t), t)
  {
    assert (past + [t])[..|past|] == past && (past + [t])[|past|] == t;
  }

  lemma {:induction false} RunsCut(tails: seq<string>)
    requires Keyed(tails)
    ensures Cut(Runs(tails), tails)
  {
    if tails != [] {
      var past, t := tails[..|tails| - 1], tails[|tails| - 1];
      assert forall x | x in past :: x in tails;
      assert tails == past + [t];
      RunsCut(past);
      RunsOfMore(past, t);
      assert t in tails;
      PartitionStep(Runs(past), past, t);
    }
  }

  /** The runs partition the tails, in order, into maximal chains. */
  lemma RunsPartition(tails: seq<string>)
    requires Keyed(tails)
    ensures IsRunPartition(Runs(tails), tails)
  {
    RunsCut(tails);
  }

  // ------------------------------------------------------------------------ printing

  /** What one run prints: a range from three tails up, the tails themselves below. */
  function RunPieces(run: seq<string>): seq<string> {
    if |run| >= 3 then [run[0] + "-" + Last(run)] else run
  }

  function Pieces(runs: seq<seq<string>>): seq<string> {
    if runs == [] then [] else RunPieces(runs[0]) + Pieces(runs[1..])
  }

  predicate AllShort(runs: seq<seq<string>>) { forall run | run in runs :: |run| < 3 }

  /** What follows the prefix. */
  function TailText(tails: seq<string>): string
    requires Keyed(tails)
  {
    if AllShort(Runs(tails)) then Join(tails, "/") else Join(Pieces(Runs(tails)), ", ")
  }

  /** compose_combined_name */
  function CombinedName(names: seq<string>): string {
    if names == [] then ""
    else if |names| == 1 then names[0]
    else
      var split := SplitShared(names);
      if split.None? then Join(names, " + ") else split.value.prefix + " " + Join(split.value.tails, "/")
  }

  /** _compose_ranged_name */
  function RangedName(names: seq<string>): string {
    var split := if |names| > 1 then SplitShared(names) else None;
    if split.None? || !Keyed(split.value.tails) then CombinedName(names)
    else split.value.prefix + " " + TailText(split.value.tails)
  }

  /** compose_aliased_name */
  function AliasedName(alias: string, names: seq<string>): string {
    var location := RangedName(names);
    if location == "" || location == alias then alias else alias + " (" + location + ")"
  }

  method ComposeRangedName(names: seq<string>) returns (text: string)
    ensures text == RangedName(names)
  {
    var split: Option<Split> := None;
    if |names| > 1 {
      split := SplitSharedPrefix(names);
    }
    if split.None? || !Keyed(split.value.tails) {
      return CombinedName(names);
    }
    var tails := split.value.tails;
    var runs := FormRuns(tails);
    RunsPartition(tails);
    if AllShort(runs) {
      return CombinedName(names);
    }
    var pieces := PrintPieces(runs);
    text := split.value.prefix + " " + Join(pieces, ", ");
  }

  /** The printing loop of _compose_ranged_name. */
  method PrintPieces(runs: seq<seq<string>>) returns (pieces: seq<string>)
    requires forall run | run in runs :: run != []
    ensures pieces == Pieces(runs)
  {
    pieces := [];
    for i := 0 to |runs|
      invariant pieces == Pieces(runs[..i])
    {
      ghost var before := pieces;
      if |runs[i]| >= 3 {
        assert runs[i] in runs;
        pieces := pieces + [runs[i][0] + "-" + Last(runs[i])];
      } else {
        pieces := pieces + runs[i];
      }
      assert pieces == before + RunPieces(runs[i]);
      assert runs[..i + 1] == runs[..i] + [runs[i]];
      PiecesAppend(runs[..i], runs[i]);
    }
    assert runs[..|runs|] == runs;
  }

  lemma {:induction false} PiecesAppend(runs: seq<seq<string>>, run: seq<string>)
    ensures Pieces(runs + [run]) == Pieces(runs) + RunPieces(run)
  {
    if runs == [] {
      assert Pieces([run]) == RunPieces(run) + Pieces([run][1..]);
    } else {
      assert (runs + [run])[0] == runs[0] && (runs + [run])[1..] == runs[1..] + [run];
      PiecesAppend(runs[1..], run);
    }
  }

  method FormRuns(tails: seq<string>) returns (runs: seq<seq<string>>)
    requires Keyed(tails)
    ensures runs == Runs(tails)
  {
    runs := [];
    var i := 0;
    while i < |tails|
      invariant i <= |tails| && Keyed(tails[..i]) && runs == Runs(tails[..i])
    {
      assert tails[..i + 1][..i] == tails[..i];
      assert forall t | t in tails[..i + 1] :: t in tails;
      if i > 0 && Follows(tails[i - 1], tails[i]) {
        runs := runs[..|runs| - 1] + [runs[|runs| - 1] + [tails[i]]];
      } else {
        runs := runs + [[tails[i]]];
      }
      i := i + 1;
    }
    assert tails[..i] == tails;
  }

  // ------------------------------------------------------------------------- parsing

  predicate StartsWith(s: string, prefix: string) { |prefix| <= |s| && s[..|prefix|] == prefix }

  /** The text between separators. */
  function Fields(s: string, sep: string): (fields: seq<string>)
    requires sep != ""
    ensures fields != []
    decreases |s|
  {
    if s == "" then [""]
    else if StartsWith(s, sep) then [""] + Fields(s[|sep|..], sep)
    else
      var rest := Fields(s[1..], sep);
      [[s[0]] + rest[0]] + rest[1..]
  }

  function Count(a: Key, b: Key): nat {
    match (a, b)
    case (Number(m), Number(n)) => if m <= n then n - m + 1 else 0
    case (Letter(m), Letter(n)) => if m <= n then n - m + 1 else 0
    case _ => 0
  }

  function Expand(a: Key, b: Key): seq<Key> { seq(Count(a, b), i requires 0 <= i => Shift(a, i)) }

  function One(tail: string): seq<Key> { if RangeKey(tail).Some? then [RangeKey(tail).value] else [] }

  function ParsePiece(piece: string): seq<Key> {
    var ends := Fields(piece, "-");
    if |ends| == 2 && RangeKey(ends[0]).Some? && RangeKey(ends[1]).Some? then
      Expand(RangeKey(ends[0]).value, RangeKey(ends[1]).value)
    else One(piece)
  }

  function ParsePieces(pieces: seq<string>): seq<Key> {
    if pieces == [] then [] else ParsePiece(pieces[0]) + ParsePieces(pieces[1..])
  }

  /** Reads what follows the prefix, in either form. */
  function Parse(text: string): seq<Key> {
    if '/' in text then ParsePieces(Fields(text, "/")) else ParsePieces(Fields(text, ", "))
  }

  // ------------------------------------------------------------- printing, then parsing

  lemma NotAtStart(s: string, sep: string)
    requires s != "" && sep != "" && s[0] != sep[0]
    ensures !StartsWith(s, sep)
  {
    assert |sep| <= |s| ==> s[..|sep|][0] == s[0];
  }

  lemma {:induction false} FieldsOfOne(piece: string, sep: string)
    requires sep != "" && sep[0] !in piece
    ensures Fields(piece, sep) == [piece]
  {
    if piece != "" {
      assert piece[0] in piece && forall c | c in piece[1..] :: c in piece;
      NotAtStart(piece, sep);
      FieldsOfOne(piece[1..], sep);
      assert [piece[0]] + piece[1..] == piece;
    }
  }

  lemma {:induction false} FieldsOfMore(piece: string, sep: string, rest: string)
    requires sep != "" && sep[0] !in piece
    ensures Fields(piece + sep + rest, sep) == [piece] + Fields(rest, sep)
  {
    var s := piece + sep + rest;
    if piece == "" {
      assert s[..|sep|] == sep && s[|sep|..] == rest;
    } else {
      assert piece[0] in piece && forall c | c in piece[1..] :: c in piece;
      assert s[0] == piece[0] && s[1..] == piece[1..] + sep + rest;
      NotAtStart(s, sep);
      FieldsOfMore(piece[1..], sep, rest);
      assert [piece[0]] + piece[1..] == piece;
      assert ([piece[1..]] + Fields(rest, sep))[1..] == Fields(rest, sep);
    }
  }

  lemma {:induction false} FieldsOfJoin(pieces: seq<string>, sep: string)
    requires sep != "" && pieces != [] && forall p | p in pieces :: sep[0] !in p
    ensures Fields(Join(pieces, sep), sep) == pieces
  {
    assert pieces[0] in pieces;
    if |pieces| == 1 {
      FieldsOfOne(pieces[0], sep);
    } else {
      assert forall p | p in pieces[1..] :: p in pieces;
      FieldsOfJoin(pieces[1..], sep);
      FieldsOfMore(pieces[0], sep, Join(pieces[1..], sep));
    }
  }

  /** A tail that has a key holds none of the printer's marks. */
  lemma KeyedIsPlain(tail: string)
    requires RangeKey(tail).Some?
    ensures tail != "" && '/' !in tail && ',' !in tail && '-' !in tail
  {
    if AllDigits(tail) { DigitsOnly(tail); }
  }

  lemma {:induction false} ChainKeys(run: seq<string>, i: nat)
    requires Keyed(run) && Chain(run) && i < |run|
    ensures RangeKey(run[i]) == Some(Shift(RangeKey(run[0]).value, i))
  {
    if i > 0 {
      ChainKeys(run, i - 1);
      assert Follows(run[i - 1], run[i]);
    }
  }

  /** A run's pieces read back as its keys. */
  lemma RunReadsBack(run: seq<string>)
    requires Keyed(run) && Chain(run)
    ensures ParsePieces(RunPieces(run)) == Keys(run)
  {
    forall i | 0 <= i < |run|
      ensures RangeKey(run[i]).Some?
    {
    }
    if |run| >= 3 {
      RangeReadsBack(run);
    } else {
      TailsReadBack(run);
    }
  }

  lemma RangeReadsBack(run: seq<string>)
    requires Keyed(run) && Chain(run)
    ensures ParsePieces([run[0] + "-" + Last(run)]) == Keys(run)
  {
    var first, last := run[0], Last(run);
    KeyedIsPlain(first);
    KeyedIsPlain(last);
    FieldsOfMore(first, "-", last);
    FieldsOfOne(last, "-");
    ChainKeys(run, |run| - 1);
    var keys := Expand(RangeKey(first).value, RangeKey(last).value);
    assert |keys| == |run|;
    forall i | 0 <= i < |run|
      ensures keys[i] == Keys(run)[i]
    {
      ChainKeys(run, i);
    }
    assert [first + "-" + last][1..] == [];
    assert ParsePieces([first + "-" + last]) == keys;
  }

  lemma TailReadsBack(tail: string)
    requires RangeKey(tail).Some?
    ensures ParsePiece(tail) == [RangeKey(tail).value]
  {
    KeyedIsPlain(tail);
    FieldsOfOne(tail, "-");
  }

  lemma {:induction false} TailsReadBack(tails: seq<string>)
    requires Keyed(tails)
    ensures ParsePieces(tails) == Keys(tails)
  {
    if tails != [] {
      assert RangeKey(tails[0]).Some?;
      assert forall t | t in tails[1..] :: t in tails;
      TailReadsBack(tails[0]);
      TailsReadBack(tails[1..]);
      assert Keys(tails) == [RangeKey(tails[0]).value] + Keys(tails[1..]);
    }
  }

  lemma {:induction false} ParseConcat(a: seq<string>, b: seq<string>)
    ensures ParsePieces(a + b) == ParsePieces(a) + ParsePieces(b)
  {
    if a == [] {
      assert a + b == b;
    } else {
      assert (a + b)[1..] == a[1..] + b;
      ParseConcat(a[1..], b);
    }
  }

  lemma {:induction false} PiecesReadBack(runs: seq<seq<string>>)
    requires forall i | 0 <= i < |runs| :: Keyed(runs[i]) && Chain(runs[i])
    ensures Keyed(Flatten(runs)) && ParsePieces(Pieces(runs)) == Keys(Flatten(runs))
  {
    if runs != [] {
      PiecesReadBack(runs[1..]);
      RunReadsBack(runs[0]);
      ParseConcat(RunPieces(runs[0]), Pieces(runs[1..]));
    }
  }

  /** No piece of a run partition holds a slash or a comma. */
  lemma {:induction false} PiecesArePlain(runs: seq<seq<string>>)
    requires forall i | 0 <= i < |runs| :: Keyed(runs[i]) && Chain(runs[i])
    ensures forall p | p in Pieces(runs) :: '/' !in p && ',' !in p
    ensures runs != [] ==> Pieces(runs) != []
  {
    if runs != [] {
      PiecesArePlain(runs[1..]);
      forall t | t in runs[0]
        ensures '/' !in t && ',' !in t
      {
        KeyedIsPlain(t);
      }
      assert runs[0][0] in runs[0] && Last(runs[0]) in runs[0];
    }
  }

  lemma {:induction false} NoSlash(pieces: seq<string>)
    requires forall p | p in pieces :: '/' !in p
    ensures '/' !in Join(pieces, ", ")
  {
    if pieces != [] {
      assert pieces[0] in pieces;
      assert forall p | p in pieces[1..] :: p in pieces;
      NoSlash(pieces[1..]);
    }
  }

  /** Printing loses nothing: what follows the prefix, in range or slash form, reads back as
      exactly the keys of the tails, in order. */
  lemma TailTextLossless(tails: seq<string>)
    requires |tails| >= 2 && Keyed(tails)
    ensures Parse(TailText(tails)) == Keys(tails)
  {
    var runs := Runs(tails);
    RunsPartition(tails);
    if AllShort(runs) {
      forall t | t in tails
        ensures '/' !in t
      {
        KeyedIsPlain(t);
      }
      FieldsOfJoin(tails, "/");
      TailsReadBack(tails);
      assert Join(tails, "/")[|tails[0]|] == '/';
    } else {
      PiecesArePlain(runs);
      NoSlash(Pieces(runs));
      FieldsOfJoin(Pieces(runs), ", ");
      PiecesReadBack(runs);
    }
  }

  /** The split fails exactly when no first word is shared or some name is all shared words. */
  lemma SplitFailsExactly(names: seq<string>)
    requires names != []
    ensures SplitShared(names).None? <==>
            !Agree(WordLists(names), 1) || exists l | l in WordLists(names) :: Agree(WordLists(names), |l|)
  {
    var lists := WordLists(names);
    SharedIsLongest(lists, 1);
    forall l | l in lists
      ensures Agree(lists, |l|) <==> |l| == Shared(lists, 0)
    {
      SharedIsLongest(lists, |l|);
    }
  }

  /** Every name is the prefix's n words followed by its tail's words, and some two names
      differ in the word after those n. */
  ghost predicate SplitsAt(names: seq<string>, split: Split, n: nat)
    requires names != []
  {
    && 0 < n < |Words(names[0])| && split.prefix == Join(Words(names[0])[..n], " ")
    && |split.tails| == |names|
    && (forall i | 0 <= i < |names| ::
          n < |Words(names[i])| && Words(names[i])[..n] == Words(names[0])[..n])
    && (forall i | 0 <= i < |names| :: split.tails[i] == Join(Words(names[i])[n..], " "))
    && exists i | 0 <= i < |names| :: Words(names[i])[n] != Words(names[0])[n]
  }

  /** The prefix is the longest run of words that every name starts with. */
  lemma SplitIsLongest(names: seq<string>)
    requires names != [] && SplitShared(names).Some?
    ensures exists n: nat :: SplitsAt(names, SplitShared(names).value, n)
  {
    var n := Shared(WordLists(names), 0);
    EveryNameIsLonger(names, n);
    SomeNextWordDiffers(names, n);
    assert SplitsAt(names, SplitShared(names).value, n);
  }

  lemma EveryNameIsLonger(names: seq<string>, n: nat)
    requires names != [] && Agree(WordLists(names), n) && forall l | l in WordLists(names) :: |l| != n
    ensures forall i | 0 <= i < |names| :: n < |Words(names[i])| && Words(names[i])[..n] == Words(names[0])[..n]
  {
    var lists := WordLists(names);
    forall i | 0 <= i < |names|
      ensures n < |Words(names[i])| && Words(names[i])[..n] == Words(names[0])[..n]
    {
      assert lists[i] in lists && lists[0] == Words(names[0]);
    }
  }

  lemma SomeNextWordDiffers(names: seq<string>, n: nat)
    requires names != [] && Agree(WordLists(names), n) && !Agree(WordLists(names), n + 1)
    requires forall i | 0 <= i < |names| :: n < |Words(names[i])|
    ensures exists i | 0 <= i < |names| :: Words(names[i])[n] != Words(names[0])[n]
  {
    var lists := WordLists(names);
    if forall i | 0 <= i < |names| :: Words(names[i])[n] == Words(names[0])[n] {
      forall l | l in lists
        ensures n < |l| && l[n] == lists[0][n]
      {
        var i :| 0 <= i < |lists| && lists[i] == l;
        assert l == Words(names[i]);
      }
      AgreeOneMore(lists, n);
    }
  }

  /** A combined name is its shared words, a space, and text that reads back as the keys of the
      members' tails, in the order given. */
  lemma RangedNameLossless(names: seq<string>)
    requires |names| >= 2 && SplitShared(names).Some? && Keyed(SplitShared(names).value.tails)
    ensures var split := SplitShared(names).value;
            && RangedName(names) == split.prefix + " " + TailText(split.tails)
            && Parse(RangedName(names)[|split.prefix| + 1..]) == Keys(split.tails)
  {
    RangedNameParts(names);
    var split := SplitShared(names).value;
    TextLossless(RangedName(names), split);
  }

  lemma RangedNameParts(names: seq<string>)
    requires |names| >= 2 && SplitShared(names).Some? && Keyed(SplitShared(names).value.tails)
    ensures var split := SplitShared(names).value;
            |split.tails| >= 2 && RangedName(names) == split.prefix + " " + TailText(split.tails)
  {
  }

  lemma TextLossless(text: string, split: Split)
    requires |split.tails| >= 2 && Keyed(split.tails) && text == split.prefix + " " + TailText(split.tails)
    ensures Parse(text[|split.prefix| + 1..]) == Keys(split.tails)
  {
    TailTextLossless(split.tails);
    AfterPrefix(split.prefix, TailText(split.tails));
  }

  lemma AfterPrefix(prefix: string, text: string)
    ensures (prefix + " " + text)[|prefix| + 1..] == text
  {
  }

  /** An aliased name is the alias alone or the alias and, in brackets, a name that loses nothing. */
  lemma AliasedNameLossless(alias: string, names: seq<string>)
    requires |names| >= 2 && SplitShared(names).Some? && Keyed(SplitShared(names).value.tails)
    requires RangedName(names) != alias
    ensures var text, split := AliasedName(alias, names), SplitShared(names).value;
            && alias <= text && |text| >= |alias| + |split.prefix| + 4
            && Parse(text[|alias| + 2..|text| - 1][|split.prefix| + 1..]) == Keys(split.tails)
  {
    RangedNameLossless(names);
    AliasedNameParts(alias, names);
    InBrackets(alias, RangedName(names));
  }

  lemma AliasedNameParts(alias: string, names: seq<string>)
    requires |names| >= 2 && SplitShared(names).Some? && Keyed(SplitShared(names).value.tails)
    requires RangedName(names) != alias
    ensures AliasedName(alias, names) == alias + " (" + RangedName(names) + ")"
    ensures |RangedName(names)| >= |SplitShared(names).value.prefix| + 1
  {
    RangedNameParts(names);
  }

  lemma InBrackets(alias: string, location: string)
    ensures var text := alias + " (" + location + ")";
            alias <= text && text[|alias| + 2..|text| - 1] == location
  {
  }
}
