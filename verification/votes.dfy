/**
  The vote tally behind `evaluateAssetDirection` in both servers: every signal
  adds to the rise, fall or neutral count according to its weight, and the
  verdict is the side with a strict majority over both others.
*/
module Votes {
  import opened Common

  datatype Tally = Tally(rise: nat, fall: nat, neutral: nat)

  const NoVotes := Tally(0, 0, 0)

  function Add(t: Tally, u: Tally): Tally
  {
    Tally(t.rise + u.rise, t.fall + u.fall, t.neutral + u.neutral)
  }

  /** The counts after a left-to-right pass over the signals, `ballot` giving each weight's share. */
  function TallyOf(ballot: Weight -> Tally, s: seq<Signal>): Tally
  {
    if s == [] then NoVotes
    else Add(TallyOf(ballot, s[..|s| - 1]), ballot(s[|s| - 1].weight))
  }

  /** "rise" or "fall" only on a strict majority over both other counts; every tie is neutral. */
  function Verdict(t: Tally): (d: Direction)
    ensures d == Rise <==> t.rise > t.fall && t.rise > t.neutral
    ensures d == Fall <==> t.fall > t.rise && t.fall > t.neutral
    ensures d == Neutral <==> !(t.rise > t.fall && t.rise > t.neutral) && !(t.fall > t.rise && t.fall > t.neutral)
  {
    if t.rise > t.fall && t.rise > t.neutral then Rise
    else if t.fall > t.rise && t.fall > t.neutral then Fall
    else Neutral
  }

  /** The number of signals whose weight is `w`. */
  function Count(s: seq<Signal>, w: Weight): (n: nat)
    ensures n <= |s|
  {
    if s == [] then 0
    else Count(s[..|s| - 1], w) + (if s[|s| - 1].weight == w then 1 else 0)
  }

  lemma {:induction false} TallyOfAppend(ballot: Weight -> Tally, s: seq<Signal>, t: seq<Signal>)
    ensures TallyOf(ballot, s + t) == Add(TallyOf(ballot, s), TallyOf(ballot, t))
    decreases |t|
  {
    if t == [] {
      assert s + t == s;
      AddNoVotes(TallyOf(ballot, s));
    } else {
      var t' := t[..|t| - 1];
      var b := ballot(t[|t| - 1].weight);
      assert (s + t)[..|s + t| - 1] == s + t';
      assert (s + t)[|s + t| - 1] == t[|t| - 1];
      TallyOfAppend(ballot, s, t');
      AddAssociative(TallyOf(ballot, s), TallyOf(ballot, t'), b);
    }
  }

  lemma AddNoVotes(a: Tally)
    ensures Add(a, NoVotes) == a
  {
  }

  lemma AddAssociative(a: Tally, b: Tally, c: Tally)
    ensures Add(Add(a, b), c) == Add(a, Add(b, c))
  {
  }

  /** The counts, and so the verdict, do not depend on the order of the signals. */
  lemma {:induction false} TallyOfPermutation(ballot: Weight -> Tally, s: seq<Signal>, t: seq<Signal>)
    requires multiset(s) == multiset(t)
    ensures TallyOf(ballot, s) == TallyOf(ballot, t)
    decreases |s|
  {
    if s == [] {
      assert |t| == |multiset(t)| == 0;
    } else {
      var x := s[|s| - 1];
      var s' := s[..|s| - 1];
      assert s == s' + [x];
      assert x in multiset(t);
      var k :| 0 <= k < |t| && t[k] == x;
      var t' := t[..k] + t[k + 1..];
      WithoutOne(s, |s| - 1);
      WithoutOne(t, k);
      assert s[..|s| - 1] + s[|s|..] == s';
      TallyOfPermutation(ballot, s', t');
      TallyWithoutOne(ballot, t, k);
    }
  }

  lemma WithoutOne(t: seq<Signal>, k: nat)
    requires k < |t|
    ensures multiset(t[..k] + t[k + 1..]) == multiset(t) - multiset{t[k]}
  {
    assert t == t[..k] + [t[k]] + t[k + 1..];
  }

  lemma TallyWithoutOne(ballot: Weight -> Tally, t: seq<Signal>, k: nat)
    requires k < |t|
    ensures TallyOf(ballot, t) == Add(TallyOf(ballot, t[..k] + t[k + 1..]), ballot(t[k].weight))
  {
    var x, before, after := t[k], t[..k], t[k + 1..];
    var a, b, c := TallyOf(ballot, before), ballot(x.weight), TallyOf(ballot, after);
    SplitAt(t, k);
    calc {
      TallyOf(ballot, t);
      { TallyOfAppend(ballot, before + [x], after); }
      Add(TallyOf(ballot, before + [x]), c);
      { TallyOfSnoc(ballot, before, x); }
      Add(Add(a, b), c);
      { AddSwap(a, b, c); }
      Add(Add(a, c), b);
      { TallyOfAppend(ballot, before, after); }
      Add(TallyOf(ballot, before + after), b);
    }
  }

  lemma SplitAt(t: seq<Signal>, k: nat)
    requires k < |t|
    ensures t == (t[..k] + [t[k]]) + t[k + 1..]
  {
  }

  lemma TallyOfSnoc(ballot: Weight -> Tally, s: seq<Signal>, x: Signal)
    ensures TallyOf(ballot, s + [x]) == Add(TallyOf(ballot, s), ballot(x.weight))
  {
    assert (s + [x])[..|s|] == s;
  }

  lemma AddSwap(a: Tally, b: Tally, c: Tally)
    ensures Add(Add(a, b), c) == Add(Add(a, c), b)
  {
  }

  /**
    The weight table of server.js: 0 is one rise vote, -1 two rise votes, 1 one
    fall vote, 2 two fall votes; any other weight ('00', 3, ...) one neutral vote.
  */
  function Ballot(w: Weight): Tally
  {
    if w == Vote(0) then Tally(1, 0, 0)
    else if w == Vote(1) then Tally(0, 1, 0)
    else if w == Vote(2) then Tally(0, 2, 0)
    else if w == Vote(-1) then Tally(2, 0, 0)
    else Tally(0, 0, 1)
  }

  /** The side of the server.js tally a weight is counted on. */
  function VoteSide(w: Weight): (d: Direction)
    ensures d == Rise <==> w == Vote(0) || w == Vote(-1)
    ensures d == Fall <==> w == Vote(1) || w == Vote(2)
    ensures d == Neutral <==> w != Vote(0) && w != Vote(-1) && w != Vote(1) && w != Vote(2)
  {
    var b := Ballot(w);
    if b.rise > 0 then Rise else if b.fall > 0 then Fall else Neutral
  }

  /** A signal whose weight is counted on the side its direction names. */
  predicate Agrees(s: Signal)
  {
    VoteSide(s.weight) == s.direction
  }

  /**
    The server.js tally counted weight by weight: rise is the number of 0s plus
    twice the number of -1s, fall the number of 1s plus twice the number of 2s,
    and every other signal is one neutral vote.
  */
  lemma {:induction false} TallyByWeight(s: seq<Signal>)
    ensures TallyOf(Ballot, s).rise == Count(s, Vote(0)) + 2 * Count(s, Vote(-1))
    ensures TallyOf(Ballot, s).fall == Count(s, Vote(1)) + 2 * Count(s, Vote(2))
    ensures TallyOf(Ballot, s).neutral
         == |s| - Count(s, Vote(0)) - Count(s, Vote(-1)) - Count(s, Vote(1)) - Count(s, Vote(2))
  {
    if s != [] {
      var s' := s[..|s| - 1];
      var w := s[|s| - 1].weight;
      TallyByWeight(s');
      assert TallyOf(Ballot, s) == Add(TallyOf(Ballot, s'), Ballot(w));
      assert Count(s, Vote(0)) == Count(s', Vote(0)) + (if w == Vote(0) then 1 else 0);
      assert Count(s, Vote(-1)) == Count(s', Vote(-1)) + (if w == Vote(-1) then 1 else 0);
      assert Count(s, Vote(1)) == Count(s', Vote(1)) + (if w == Vote(1) then 1 else 0);
      assert Count(s, Vote(2)) == Count(s', Vote(2)) + (if w == Vote(2) then 1 else 0);
    }
  }
}
