/**
 * The embedded rate documents of one rated field (`<field>_data`) and the list
 * operations the rating ledger performs on them: the two rater lookups, the two
 * ways of deleting a rater's vote, and the sums the aggregate is built from.
 */
module Votes {

  datatype Option<T> = None | Some(value: T)

  /** Who cast a vote: the polymorphic `rater` reference, i.e. its class name and its id. */
  datatype Rater = Rater(kind: string, id: nat)

  /** One embedded rate document. */
  datatype Vote = Vote(rater: Rater, value: real)

  /** Sum of the values of a list of votes. */
  function Sum(votes: seq<Vote>): real
  {
    if votes == [] then 0.0 else votes[0].value + Sum(votes[1..])
  }

  /** The values of the votes, in insertion order (`<field>_values`, `data.map(&:value)`). */
  function Values(votes: seq<Vote>): (vs: seq<real>)
    ensures |vs| == |votes|
    ensures forall i :: 0 <= i < |votes| ==> vs[i] == votes[i].value
  {
    if votes == [] then [] else [votes[0].value] + Values(votes[1..])
  }

  /**
   * Index of the first vote whose rater has this id AND this kind: the lookup of
   * `raw_<field>_by`, `did_<field>?`, `<field>_by` and `<field>_by?`.
   */
  function FindRater(votes: seq<Vote>, rater: Rater): (k: Option<nat>)
    ensures k.Some? ==> k.value < |votes| && votes[k.value].rater == rater
    ensures k.Some? ==> forall j :: 0 <= j < k.value ==> votes[j].rater != rater
    ensures k.None? <==> forall j :: 0 <= j < |votes| ==> votes[j].rater != rater
  {
    if votes == [] then None
    else if votes[0].rater == rater then Some(0)
    else match FindRater(votes[1..], rater)
      case None => None
      case Some(k) => Some(k + 1)
  }

  /**
   * Index of the first vote whose rater has this id, whatever its kind: the lookup
   * of `un<field>!` (`where(rater_id: rater.id).first`).
   */
  function FindId(votes: seq<Vote>, id: nat): (k: Option<nat>)
    ensures k.Some? ==> k.value < |votes| && votes[k.value].rater.id == id
    ensures k.Some? ==> forall j :: 0 <= j < k.value ==> votes[j].rater.id != id
    ensures k.None? <==> forall j :: 0 <= j < |votes| ==> votes[j].rater.id != id
  {
    if votes == [] then None
    else if votes[0].rater.id == id then Some(0)
    else match FindId(votes[1..], id)
      case None => None
      case Some(k) => Some(k + 1)
  }

  /** The value of the vote `FindId` finds, or 0 when there is none. */
  function ValueOfId(votes: seq<Vote>, id: nat): real
  {
    match FindId(votes, id)
    case None => 0.0
    case Some(k) => votes[k].value
  }

  /** The list with every vote of this rater id deleted (`where(rater_id: id).destroy_all`). */
  function WithoutId(votes: seq<Vote>, id: nat): (r: seq<Vote>)
    ensures forall i :: 0 <= i < |r| ==> r[i] in votes && r[i].rater.id != id
    ensures |r| <= |votes|
  {
    if votes == [] then []
    else if votes[0].rater.id == id then WithoutId(votes[1..], id)
    else [votes[0]] + WithoutId(votes[1..], id)
  }

  /** Deleting a rater id's votes keeps every vote of every other id. */
  lemma {:induction false} WithoutIdKeepsOthers(votes: seq<Vote>, id: nat, v: Vote)
    requires v in votes && v.rater.id != id
    ensures v in WithoutId(votes, id)
  {
    if votes[0] != v {
      WithoutIdKeepsOthers(votes[1..], id, v);
    }
  }

  /** The list with the first vote of this rater id deleted, if there is one (`r.destroy`). */
  function WithoutFirstId(votes: seq<Vote>, id: nat): (r: seq<Vote>)
    ensures FindId(votes, id).None? ==> r == votes
    ensures FindId(votes, id).Some? ==> |r| == |votes| - 1
    ensures FindId(votes, id).Some? ==>
      forall i :: 0 <= i < |r| ==>
        r[i] == (if i < FindId(votes, id).value then votes[i] else votes[i + 1])
  {
    match FindId(votes, id)
    case None => votes
    case Some(k) => votes[..k] + votes[k + 1..]
  }

  /** The list after a rater casts `vote`: the rater id's old votes deleted, the new one appended. */
  function Replace(votes: seq<Vote>, vote: Vote): (r: seq<Vote>)
    ensures |r| > 0 && r[|r| - 1] == vote
    ensures forall i :: 0 <= i < |r| - 1 ==> r[i] in votes && r[i].rater.id != vote.rater.id
  {
    WithoutId(votes, vote.rater.id) + [vote]
  }

  /** No two votes carry the same rater id. */
  ghost predicate UniqueIds(votes: seq<Vote>)
  {
    forall i, j :: 0 <= i < j < |votes| ==> votes[i].rater.id != votes[j].rater.id
  }

  lemma {:induction false} SumConcat(a: seq<Vote>, b: seq<Vote>)
    ensures Sum(a + b) == Sum(a) + Sum(b)
  {
    if a == [] {
      assert a + b == b;
    } else {
      assert (a + b)[1..] == a[1..] + b;
      SumConcat(a[1..], b);
    }
  }

  /** Extending a prefix by one vote adds that vote's value to the sum. */
  lemma SumPrefixStep(votes: seq<Vote>, i: nat)
    requires i < |votes|
    ensures Sum(votes[..i + 1]) == Sum(votes[..i]) + votes[i].value
  {
    assert votes[..i + 1] == votes[..i] + [votes[i]];
    SumConcat(votes[..i], [votes[i]]);
    assert [votes[i]][1..] == [];
  }

  /** Deleting the vote at `k` takes its value off the sum. */
  lemma SumRemoveAt(votes: seq<Vote>, k: nat)
    requires k < |votes|
    ensures Sum(votes[..k] + votes[k + 1..]) == Sum(votes) - votes[k].value
  {
    assert votes == votes[..k] + ([votes[k]] + votes[k + 1..]);
    SumConcat(votes[..k], [votes[k]] + votes[k + 1..]);
    SumConcat(votes[..k], votes[k + 1..]);
    assert ([votes[k]] + votes[k + 1..])[1..] == votes[k + 1..];
  }

  /** If every value lies in `[low, high]`, the sum lies between `n * low` and `n * high`. */
  lemma {:induction false} SumBounds(votes: seq<Vote>, low: real, high: real)
    requires forall i :: 0 <= i < |votes| ==> low <= votes[i].value <= high
    ensures |votes| as real * low <= Sum(votes) <= |votes| as real * high
  {
    if votes != [] {
      SumBounds(votes[1..], low, high);
      assert |votes| as real * low == low + |votes[1..]| as real * low;
      assert |votes| as real * high == high + |votes[1..]| as real * high;
    }
  }

  /** Deleting one position keeps rater ids unique. */
  lemma RemoveAtUnique(votes: seq<Vote>, k: nat)
    requires UniqueIds(votes) && k < |votes|
    ensures UniqueIds(votes[..k] + votes[k + 1..])
  {
    var r := votes[..k] + votes[k + 1..];
    forall i, j | 0 <= i < j < |r|
      ensures r[i].rater.id != r[j].rater.id
    {
      var i' := if i < k then i else i + 1;
      var j' := if j < k then j else j + 1;
      assert r[i] == votes[i'] && r[j] == votes[j'];
    }
  }

  /** Deleting the votes of an id that no vote carries leaves the list as it was. */
  lemma {:induction false} WithoutAbsentId(votes: seq<Vote>, id: nat)
    requires forall j :: 0 <= j < |votes| ==> votes[j].rater.id != id
    ensures WithoutId(votes, id) == votes
  {
    if votes != [] {
      WithoutAbsentId(votes[1..], id);
      assert [votes[0]] + votes[1..] == votes;
    }
  }

  /**
   * When rater ids are unique, deleting every vote of an id (the eval branch of
   * `<field>!`) and deleting the first one (`un<field>!`) give the same list.
   */
  lemma {:induction false} WithoutIdIsWithoutFirstId(votes: seq<Vote>, id: nat)
    requires UniqueIds(votes)
    ensures WithoutId(votes, id) == WithoutFirstId(votes, id)
  {
    if votes == [] {
    } else if votes[0].rater.id == id {
      assert FindId(votes, id) == Some(0);
      WithoutAbsentId(votes[1..], id);
      assert votes[..0] + votes[1..] == votes[1..];
    } else {
      WithoutIdIsWithoutFirstId(votes[1..], id);
      WithoutFirstIdOfOther(votes, id);
    }
  }

  /** Deleting the first vote of an id that the head does not carry happens in the tail. */
  lemma WithoutFirstIdOfOther(votes: seq<Vote>, id: nat)
    requires votes != [] && votes[0].rater.id != id
    ensures WithoutFirstId(votes, id) == [votes[0]] + WithoutFirstId(votes[1..], id)
  {
    var tail := votes[1..];
    match FindId(tail, id)
    case None =>
      assert FindId(votes, id) == None;
      assert [votes[0]] + tail == votes;
    case Some(k) =>
      assert FindId(votes, id) == Some(k + 1);
      assert votes[..k + 1] + votes[k + 2..] == [votes[0]] + (tail[..k] + tail[k + 1..]);
  }

  /**
   * After `Replace`, the caster's id has exactly one vote, the new one, at the end:
   * both lookups find it there.
   */
  lemma ReplaceKeepsOneVote(votes: seq<Vote>, vote: Vote)
    ensures var r := Replace(votes, vote);
      && r[|r| - 1] == vote
      && (forall j :: 0 <= j < |r| - 1 ==> r[j].rater.id != vote.rater.id)
      && FindId(r, vote.rater.id) == Some(|r| - 1)
      && FindRater(r, vote.rater) == Some(|r| - 1)
  {
    var w := WithoutId(votes, vote.rater.id);
    var r := Replace(votes, vote);
    forall j | 0 <= j < |r| - 1
      ensures r[j].rater.id != vote.rater.id
    {
      assert r[j] == w[j];
    }
  }

  /**
   * The delete before the append matches on the id alone, so a cast removes the
   * vote of a rater of another kind that shares the caster's id: afterwards the
   * id-and-kind lookup no longer finds that rater.
   */
  lemma CastDisplacesSharedId(votes: seq<Vote>, vote: Vote, other: Rater)
    requires other.id == vote.rater.id && other != vote.rater
    ensures FindRater(Replace(votes, vote), other) == None
  {
    ReplaceKeepsOneVote(votes, vote);
  }

  /** `Replace` keeps rater ids unique. */
  lemma ReplaceUnique(votes: seq<Vote>, vote: Vote)
    requires UniqueIds(votes)
    ensures UniqueIds(Replace(votes, vote))
  {
    var w := WithoutId(votes, vote.rater.id);
    WithoutIdIsWithoutFirstId(votes, vote.rater.id);
    match FindId(votes, vote.rater.id) {
      case None =>
      case Some(k) => RemoveAtUnique(votes, k);
    }
    ReplaceKeepsOneVote(votes, vote);
  }

  /**
   * `Replace` leaves the count unchanged and moves the sum by the new value minus
   * the old one when the id had a vote; otherwise it adds one vote and its value.
   */
  lemma ReplaceTally(votes: seq<Vote>, vote: Vote)
    requires UniqueIds(votes)
    ensures var r := Replace(votes, vote);
      && |r| == |votes| + (if FindId(votes, vote.rater.id).Some? then 0 else 1)
      && Sum(r) == Sum(votes) - ValueOfId(votes, vote.rater.id) + vote.value
  {
    var id := vote.rater.id;
    var w := WithoutId(votes, id);
    WithoutIdIsWithoutFirstId(votes, id);
    match FindId(votes, id) {
      case None =>
      case Some(k) => SumRemoveAt(votes, k);
    }
    SumConcat(w, [vote]);
    assert [vote][1..] == [];
  }

  /** Deleting the first vote of an id takes one vote and its value off the tally. */
  lemma RetractTally(votes: seq<Vote>, id: nat)
    requires UniqueIds(votes)
    ensures var r := WithoutFirstId(votes, id);
      && UniqueIds(r)
      && |r| == |votes| - (if FindId(votes, id).Some? then 1 else 0)
      && Sum(r) == Sum(votes) - ValueOfId(votes, id)
      && forall j :: 0 <= j < |r| ==> r[j].rater.id != id
  {
    WithoutIdIsWithoutFirstId(votes, id);
    match FindId(votes, id) {
      case None =>
      case Some(k) =>
        SumRemoveAt(votes, k);
        RemoveAtUnique(votes, k);
    }
    var r := WithoutFirstId(votes, id);
    forall j | 0 <= j < |r|
      ensures r[j].rater.id != id
    {
      assert r[j] == WithoutId(votes, id)[j];
    }
  }
}
