/**
 * The leaderboard: a fresh copy of the roster sorted by vote count, highest first,
 * with equal counts kept in roster order (`Array.prototype.sort` is stable,
 * section 23.1.3.30 of ECMA-262, 2023 edition). The roster itself is a value and is
 * never changed by this derivation.
 */
module ResultView {
  import opened Common
  import opened Ledger

  /** Vote counts never increase from rank 1 onward. */
  predicate Descending(s: seq<Candidate>) {
    forall i, j :: 0 <= i < j < |s| ==> s[i].voteCount >= s[j].voteCount
  }

  /** The candidates with exactly `n` votes, in the order they appear in `s`. */
  function WithVotes(s: seq<Candidate>, n: nat): (r: seq<Candidate>)
    ensures |r| <= |s|
    ensures forall c :: c in r <==> c in s && c.voteCount == n
  {
    if s == [] then []
    else (if s[0].voteCount == n then [s[0]] else []) + WithVotes(s[1..], n)
  }

  /** Places `c` before the first element of `t` whose count is at most its own. */
  function Insert(c: Candidate, t: seq<Candidate>): (r: seq<Candidate>)
    ensures |r| == |t| + 1
  {
    if t == [] || t[0].voteCount <= c.voteCount then [c] + t
    else [t[0]] + Insert(c, t[1..])
  }

  /** The comparator `(a, b) => b.voteCount - a.voteCount` under a stable sort. */
  function SortByVotes(s: seq<Candidate>): (r: seq<Candidate>)
    ensures |r| == |s|
  {
    if s == [] then [] else Insert(s[0], SortByVotes(s[1..]))
  }

  /** `candidates ? [...candidates].sort(...) : []`. */
  function Leaderboard(candidates: Option<seq<Candidate>>): (r: seq<Candidate>)
    ensures candidates == None ==> r == []
    ensures candidates.Some? ==> |r| == |candidates.value|
  {
    match candidates
    case None => []
    case Some(s) => SortByVotes(s)
  }

  /** A rendered leaderboard line. */
  datatype Row = Row(rank: nat, name: string, votes: nat)

  /** The displayed rows: rank is position + 1. */
  function Rows(board: seq<Candidate>): (r: seq<Row>)
    ensures |r| == |board|
    ensures forall i :: 0 <= i < |r| ==> r[i].rank == i + 1 && r[i].name == board[i].name && r[i].votes == board[i].voteCount
  {
    if board == [] then [] else [Row(1, board[0].name, board[0].voteCount)] + Shift(Rows(board[1..]))
  }

  /** Moves every row one rank down. */
  function Shift(rows: seq<Row>): (r: seq<Row>)
    ensures |r| == |rows|
    ensures forall i :: 0 <= i < |r| ==> r[i] == rows[i].(rank := rows[i].rank + 1)
  {
    if rows == [] then [] else [rows[0].(rank := rows[0].rank + 1)] + Shift(rows[1..])
  }

  // Insertion

  lemma {:induction false} InsertPermutes(c: Candidate, t: seq<Candidate>)
    ensures multiset(Insert(c, t)) == multiset(t) + multiset{c}
  {
    if t != [] && t[0].voteCount > c.voteCount {
      InsertPermutes(c, t[1..]);
      assert t == [t[0]] + t[1..];
    }
  }

  lemma {:induction false} InsertKeepsVoteGroups(c: Candidate, t: seq<Candidate>, n: nat)
    ensures WithVotes(Insert(c, t), n) == WithVotes([c] + t, n)
  {
    if t != [] && t[0].voteCount > c.voteCount {
      var r := Insert(c, t[1..]);
      InsertKeepsVoteGroups(c, t[1..], n);
      assert ([t[0]] + r)[1..] == r;
      assert ([c] + t[1..])[1..] == t[1..];
      assert ([c] + t)[1..] == t;
    }
  }

  lemma {:induction false} InsertKeepsDescending(c: Candidate, t: seq<Candidate>)
    requires Descending(t)
    ensures Descending(Insert(c, t))
    ensures Insert(c, t)[0] == c || (t != [] && Insert(c, t)[0] == t[0])
  {
    if t != [] && t[0].voteCount > c.voteCount {
      InsertKeepsDescending(c, t[1..]);
      var r := Insert(c, t[1..]);
      assert r[0].voteCount <= t[0].voteCount;
    }
  }

  // Sorting

  /** The leaderboard is a permutation of the roster. */
  lemma {:induction false} SortPermutes(s: seq<Candidate>)
    ensures multiset(SortByVotes(s)) == multiset(s)
  {
    if s != [] {
      SortPermutes(s[1..]);
      InsertPermutes(s[0], SortByVotes(s[1..]));
      assert s == [s[0]] + s[1..];
    }
  }

  /** Vote counts on the leaderboard are non-increasing. */
  lemma {:induction false} SortDescending(s: seq<Candidate>)
    ensures Descending(SortByVotes(s))
  {
    if s != [] {
      SortDescending(s[1..]);
      InsertKeepsDescending(s[0], SortByVotes(s[1..]));
    }
  }

  /** Stability: the candidates with any given count appear in roster order. */
  lemma {:induction false} SortStable(s: seq<Candidate>, n: nat)
    ensures WithVotes(SortByVotes(s), n) == WithVotes(s, n)
  {
    if s != [] {
      var t := SortByVotes(s[1..]);
      SortStable(s[1..], n);
      InsertKeepsVoteGroups(s[0], t, n);
      assert ([s[0]] + t)[1..] == t;
    }
  }

  /** Sorting an already ordered roster gives it back unchanged. */
  lemma {:induction false} SortIdempotent(s: seq<Candidate>)
    requires Descending(s)
    ensures SortByVotes(s) == s
  {
    if s != [] {
      assert Descending(s[1..]);
      SortIdempotent(s[1..]);
      assert s == [s[0]] + s[1..];
    }
  }

  /** The leaderboard of any roster is ordered, a permutation, stable, and sorting it again changes nothing. */
  lemma LeaderboardSpec(candidates: Option<seq<Candidate>>, n: nat)
    ensures Descending(Leaderboard(candidates))
    ensures candidates.Some? ==> multiset(Leaderboard(candidates)) == multiset(candidates.value)
    ensures candidates.Some? ==> WithVotes(Leaderboard(candidates), n) == WithVotes(candidates.value, n)
    ensures SortByVotes(Leaderboard(candidates)) == Leaderboard(candidates)
  {
    if candidates.Some? {
      SortPermutes(candidates.value);
      SortDescending(candidates.value);
      SortStable(candidates.value, n);
    }
    SortIdempotent(Leaderboard(candidates));
  }

  /** On the rendered board a better rank never shows fewer votes. */
  lemma RanksFollowVotes(s: seq<Candidate>, i: nat, j: nat)
    requires i < j < |s|
    ensures Rows(SortByVotes(s))[i].rank < Rows(SortByVotes(s))[j].rank
    ensures Rows(SortByVotes(s))[i].votes >= Rows(SortByVotes(s))[j].votes
  {
    SortDescending(s);
  }

  /** Alice with 3 votes and Bob with 5 rank as Bob, then Alice. */
  lemma TwoCandidatesExample()
    ensures SortByVotes([Candidate(0, "0xa", "Alice", 3), Candidate(1, "0xb", "Bob", 5)])
         == [Candidate(1, "0xb", "Bob", 5), Candidate(0, "0xa", "Alice", 3)]
  {
  }
}
