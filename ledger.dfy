/**
 * The rating ledger that `rateable :field, options` generates on a document: the
 * `<field>_data` list of votes with its `<field>_count`, `<field>_sum` and
 * `<field>_average`, the mutators `<field>!` and `un<field>!`, the average rule
 * `calc_<field>_avg` and the readers built on the vote list.
 */
module Ledger {
  import opened Votes

  /**
   * The options of `rateable`: the inclusive `range`, `rerate`, `float` and `eval`
   * (recount on the database server rather than update incrementally).
   */
  datatype Config = Config(low: int, high: int, rerate: bool, allowFloat: bool, serverEval: bool)

  /** `range: 1..5, rerate: true, eval: true, float: true`. */
  const Defaults := Config(1, 5, true, true, true)

  /**
   * Under the defaults a value is taken as given, accepted exactly when it lies in
   * `1..5`, and a rater may always cast again.
   */
  lemma DefaultsAccept(v: real)
    ensures Coerce(Defaults, v) == v
    ensures InRange(Defaults, Coerce(Defaults, v)) <==> 1.0 <= v <= 5.0
    ensures Defaults.rerate && Defaults.serverEval
  {
  }

  /** The two exceptions `<field>!` raises: "bad vote value" and "can't rate". */
  datatype RateError = BadVoteValue | CantRate

  datatype Outcome = Rated | Raised(error: RateError)

  /** Ruby's `to_i` on a number: drops the fractional part, rounding toward zero. */
  function Truncate(x: real): (n: int)
    ensures 0.0 <= x ==> n as real <= x < n as real + 1.0
    ensures x < 0.0 ==> n as real - 1.0 < x <= n as real
  {
    if 0.0 <= x then x.Floor else -((-x).Floor)
  }

  /**
   * The value `<field>!` goes on with: `value.to_i` unless `float` is on, so without
   * `float` it is the whole number next to `value` on the side of zero.
   */
  function Coerce(config: Config, value: real): (c: real)
    ensures config.allowFloat ==> c == value
    ensures !config.allowFloat ==> c == c.Floor as real
    ensures !config.allowFloat && 0.0 <= value ==> 0.0 <= c <= value < c + 1.0
    ensures !config.allowFloat && value < 0.0 ==> value <= c <= 0.0 && c - 1.0 < value
  {
    if config.allowFloat then value else Truncate(value) as real
  }

  /**
   * `range.include?(value)` for an inclusive integer range: an empty range takes
   * nothing, and a whole value is taken exactly when it lies between the bounds.
   */
  predicate InRange(config: Config, v: real): (r: bool)
    ensures r ==> config.low <= config.high
    ensures v == v.Floor as real ==> (r <==> config.low <= v.Floor <= config.high)
  {
    config.low as real <= v <= config.high as real
  }

  /** A value that may be stored: in range, and whole when `float` is off. */
  predicate Storable(config: Config, v: real)
  {
    InRange(config, v) && (config.allowFloat || v == v.Floor as real)
  }

  /**
   * `calc_<field>_avg`: no average below one vote, otherwise the value that, counted
   * `count` times, makes up `sum`.
   */
  function CalcAvg(sum: real, count: int): (avg: Option<real>)
    ensures avg.None? <==> count < 1
    ensures avg.Some? ==> avg.value * count as real == sum
  {
    if count < 1 then None else Some(sum / count as real)
  }

  /**
   * The aggregate fields agree with the vote list: count is its length, sum its
   * total, average the average rule applied to both; each rater id votes at most
   * once and every stored value was storable.
   */
  ghost predicate Consistent(config: Config, data: seq<Vote>, count: int, sum: real, average: Option<real>)
  {
    && count == |data|
    && sum == Sum(data)
    && average == CalcAvg(sum, count)
    && UniqueIds(data)
    && forall i :: 0 <= i < |data| ==> Storable(config, data[i].value)
  }

  /** In a consistent ledger the average, when there is one, lies within the range. */
  lemma AverageWithinRange(config: Config, data: seq<Vote>, count: int, sum: real, average: Option<real>)
    requires Consistent(config, data, count, sum, average)
    requires average.Some?
    ensures config.low as real <= average.value <= config.high as real
  {
    var n, low, high := count as real, config.low as real, config.high as real;
    SumBounds(data, low, high);
    QuotientBetween(average.value, n, sum, low, high);
  }

  /** A quotient `avg` with `avg * n == sum` and `n * low <= sum <= n * high`, `n > 0`, lies in `[low, high]`. */
  lemma QuotientBetween(avg: real, n: real, sum: real, low: real, high: real)
    requires n > 0.0 && avg * n == sum && n * low <= sum <= n * high
    ensures low <= avg <= high
  {
  }

  /** Every value `Replace` leaves in the list was storable before or is the new, storable one. */
  lemma ReplaceStorable(config: Config, votes: seq<Vote>, vote: Vote)
    requires forall i :: 0 <= i < |votes| ==> Storable(config, votes[i].value)
    requires Storable(config, vote.value)
    ensures var r := Replace(votes, vote);
      forall i :: 0 <= i < |r| ==> Storable(config, r[i].value)
  {
    var w := WithoutId(votes, vote.rater.id);
    var r := Replace(votes, vote);
    forall i | 0 <= i < |r|
      ensures Storable(config, r[i].value)
    {
      if i < |w| {
        assert r[i] == w[i];
      }
    }
  }

  /**
   * Both branches of `<field>!` end in the same aggregate. From a consistent ledger,
   * the incremental bookkeeping (retract: one off the count and the old value off the
   * sum; then one on and the new value on) gives the count and sum that recounting
   * the new list gives, and its average is the quotient the server-side script
   * stores; the retract-then-append list is the delete-all-then-append list.
   */
  lemma BranchesAgree(config: Config, data: seq<Vote>, count: int, sum: real, average: Option<real>, vote: Vote)
    requires Consistent(config, data, count, sum, average)
    ensures var r := Replace(data, vote);
      var c := count - (if FindId(data, vote.rater.id).Some? then 1 else 0) + 1;
      var s := sum - ValueOfId(data, vote.rater.id) + vote.value;
      && WithoutFirstId(data, vote.rater.id) + [vote] == r
      && c == |r| && s == Sum(r)
      && CalcAvg(s, c) == Some(Sum(r) / |r| as real)
  {
    WithoutIdIsWithoutFirstId(data, vote.rater.id);
    ReplaceTally(data, vote);
  }

  /**
   * The server-side script of the `eval` branch: walk the stored vote list once,
   * adding each value to the sum and one to the count.
   */
  method Recount(doc: seq<Vote>) returns (n: int, s: real)
    ensures n == |doc| && s == Sum(doc)
  {
    n, s := 0, 0.0;
    for i := 0 to |doc|
      invariant n == i
      invariant s == Sum(doc[..i])
    {
      SumPrefixStep(doc, i);
      s := s + doc[i].value;
      n := n + 1;
    }
    assert doc[..|doc|] == doc;
  }

  /** One rated field of one document. */
  class RatingField {
    const config: Config
    var data: seq<Vote>
    var count: int
    var sum: real
    var average: Option<real>

    ghost predicate Valid()
      reads this
    {
      Consistent(config, data, count, sum, average)
    }

    /** A fresh document: no votes, count 0 and no average. */
    constructor (config: Config)
      ensures Valid()
      ensures this.config == config && data == []
      ensures count == 0 && sum == 0.0 && average == None
    {
      this.config := config;
      data := [];
      count := 0;
      sum := 0.0;
      average := None;
    }

    /** `raw_<field>_by`: the first vote whose rater matches by id and kind. */
    function RawBy(rater: Rater): (vote: Option<Vote>)
      reads this
      ensures vote.Some? ==> vote.value.rater == rater && vote.value in data
      ensures vote.Some? ==> exists k :: 0 <= k < |data| && data[k] == vote.value &&
                               forall j :: 0 <= j < k ==> data[j].rater != rater
      ensures vote.None? <==> forall j :: 0 <= j < |data| ==> data[j].rater != rater
    {
      match FindRater(data, rater)
      case None => None
      case Some(k) => Some(data[k])
    }

    /** `did_<field>?`: the rater (id and kind) has a vote. */
    function DidRate(rater: Rater): (did: bool)
      reads this
      ensures did <==> exists j :: 0 <= j < |data| && data[j].rater == rater
    {
      RawBy(rater).Some?
    }

    /** `can_<field>?`: always with `rerate`, otherwise only a rater who has not voted. */
    function CanRate(rater: Rater): (can: bool)
      reads this
      ensures config.rerate ==> can
      ensures can <==> config.rerate || forall j :: 0 <= j < |data| ==> data[j].rater != rater
    {
      if config.rerate then true else !DidRate(rater)
    }

    /** `<field>_by`: the rater's value, or nothing when the rater has not voted. */
    function ValueBy(rater: Rater): (value: Option<real>)
      reads this
      ensures value.Some? <==> DidRate(rater)
      ensures value.Some? ==> Vote(rater, value.value) in data
    {
      match RawBy(rater)
      case None => None
      case Some(vote) => Some(vote.value)
    }

    /** `<field>_by?`: the rater has a value. */
    function RatedBy(rater: Rater): (rated: bool)
      reads this
      ensures rated <==> DidRate(rater)
      ensures rated <==> exists j :: 0 <= j < |data| && data[j].rater == rater
    {
      ValueBy(rater).Some?
    }

    /**
     * `<field>` called without arguments: the stored average. `_count` has a
     * default of 0, so its nil test never holds.
     */
    function Current(): (avg: Option<real>)
      reads this
      requires Valid()
      ensures avg.None? <==> data == []
      ensures avg.Some? ==> avg.value * |data| as real == Sum(data)
    {
      average
    }

    /**
     * `<field>!(value, rater)`: coerce, check the range, check the re-rate policy,
     * then cast through the branch `eval` selects.
     */
    method Rate(value: real, rater: Rater) returns (outcome: Outcome)
      requires Valid()
      modifies this
      ensures Valid()
      ensures outcome == Raised(BadVoteValue) <==> !InRange(config, Coerce(config, value))
      ensures outcome == Raised(CantRate) <==> InRange(config, Coerce(config, value)) && !old(CanRate(rater))
      ensures outcome == Rated <==> InRange(config, Coerce(config, value)) && old(CanRate(rater))
      ensures outcome.Raised? ==> unchanged(this)
      ensures outcome == Rated ==> data == Replace(old(data), Vote(rater, Coerce(config, value)))
      ensures outcome == Rated ==>
        FindRater(data, rater) == Some(|data| - 1) && data[|data| - 1].value == Coerce(config, value)
      ensures outcome == Rated ==>
        count == old(count) + (if FindId(old(data), rater.id).Some? then 0 else 1)
      ensures outcome == Rated ==>
        sum == old(sum) - ValueOfId(old(data), rater.id) + Coerce(config, value)
    {
      var v := Coerce(config, value);
      if !InRange(config, v) {
        return Raised(BadVoteValue);
      }
      if !CanRate(rater) {
        return Raised(CantRate);
      }
      assert Storable(config, v);
      ghost var before := data;
      if config.serverEval {
        CastRecount(v, rater);
      } else {
        CastIncremental(v, rater);
      }
      ReplaceKeepsOneVote(before, Vote(rater, v));
      ReplaceTally(before, Vote(rater, v));
      outcome := Rated;
    }

    /**
     * The `eval: true` branch: delete every vote of the rater id, append the new
     * one, then recount count and sum over the whole list and divide.
     */
    method CastRecount(v: real, rater: Rater)
      requires Valid() && Storable(config, v)
      modifies this
      ensures Valid()
      ensures data == Replace(old(data), Vote(rater, v))
    {
      ReplaceUnique(data, Vote(rater, v));
      ReplaceStorable(config, data, Vote(rater, v));
      data := WithoutId(data, rater.id);
      data := data + [Vote(rater, v)];
      var n, s := Recount(data);
      count, sum, average := n, s, Some(s / n as real);
    }

    /**
     * The `eval: false` branch: retract the rater's vote, then add one to the count
     * and the value to the sum, append the vote and recompute the average.
     */
    method CastIncremental(v: real, rater: Rater)
      requires Valid() && Storable(config, v)
      modifies this
      ensures Valid()
      ensures data == Replace(old(data), Vote(rater, v))
    {
      WithoutIdIsWithoutFirstId(data, rater.id);
      Unrate(rater);
      count := count + 1;
      sum := sum + v;
      SumConcat(data, [Vote(rater, v)]);
      assert [Vote(rater, v)][1..] == [];
      data := data + [Vote(rater, v)];
      average := CalcAvg(sum, count);
    }

    /**
     * `un<field>!`: find the first vote with the rater's id (any kind); if there is
     * one, take one off the count and its value off the sum, recompute the average
     * and delete it. Without one, nothing changes.
     */
    method Unrate(rater: Rater)
      requires Valid()
      modifies this
      ensures Valid()
      ensures data == WithoutFirstId(old(data), rater.id)
      ensures FindId(old(data), rater.id).None? ==> unchanged(this)
      ensures count == old(count) - (if FindId(old(data), rater.id).Some? then 1 else 0)
      ensures sum == old(sum) - ValueOfId(old(data), rater.id)
      ensures forall j :: 0 <= j < |data| ==> data[j].rater.id != rater.id
      ensures old(|data|) == 1 && FindId(old(data), rater.id).Some? ==>
        data == [] && count == 0 && average == None
    {
      RetractTally(data, rater.id);
      var k := FindId(data, rater.id);
      if k.Some? {
        var r := data[k.value];
        count := count - 1;
        sum := sum - r.value;
        average := CalcAvg(sum, count);
        data := data[..k.value] + data[k.value + 1..];
      }
    }
  }
}
