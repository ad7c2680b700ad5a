/**
 * The rated fields of the example models, and runs of them derived from the ledger's
 * contracts alone. The `Post` and `Comment` runs are the ones their specification
 * files expect; the `Article` runs and the last two follow the code of `<field>!`
 * and `un<field>!`.
 */
module Scenarios {
  import opened Votes
  import opened Ledger

  /** `Article` rates `:overall` on `-5..5`. */
  const ArticleOverall := Config(-5, 5, true, true, true)

  /** `Post` rates `:rate` with the defaults. */
  const PostRate := Defaults

  /** `Comment` rates `:rate` with `eval: false`, so it updates incrementally. */
  const CommentRate := Config(1, 5, true, true, false)

  /** A field declared with `float: false`. */
  const WholeRate := Config(1, 5, true, false, true)

  const Bob := Rater("User", 1)
  const Alice := Rater("User", 2)
  const Sally := Rater("User", 3)

  /**
   * A post rated 1 by Bob, then 4 by Sally: two votes averaging 2.5; Bob's value
   * reads 1 and Alice's nothing.
   */
  method PostTwoRaters() returns (count: int, average: Option<real>, bobValue: Option<real>,
                                  aliceValue: Option<real>)
    ensures count == 2 && average == Some(2.5)
    ensures bobValue == Some(1.0) && aliceValue == None
  {
    var post := new RatingField(PostRate);
    var o := post.Rate(1.0, Bob);
    assert post.data == [Vote(Bob, 1.0)];
    o := post.Rate(4.0, Sally);
    assert post.data == [Vote(Bob, 1.0), Vote(Sally, 4.0)];
    count, average := post.count, post.Current();
    bobValue, aliceValue := post.ValueBy(Bob), post.ValueBy(Alice);
  }

  /** 17 and -17 lie outside `1..5` and are refused without a vote being stored. */
  method PostOutOfRange() returns (tooHigh: Outcome, tooLow: Outcome, count: int)
    ensures tooHigh == Raised(BadVoteValue) && tooLow == Raised(BadVoteValue) && count == 0
  {
    var post := new RatingField(PostRate);
    tooHigh := post.Rate(17.0, Sally);
    tooLow := post.Rate(-17.0, Sally);
    count := post.count;
  }

  /** Bob rates 1, then 5: one vote, and the average is 5.0. */
  method PostRerate() returns (count: int, average: Option<real>)
    ensures count == 1 && average == Some(5.0)
  {
    var post := new RatingField(PostRate);
    var o := post.Rate(1.0, Bob);
    assert post.data == [Vote(Bob, 1.0)];
    o := post.Rate(5.0, Bob);
    count, average := post.count, post.Current();
  }

  /**
   * Retracting Bob's only vote leaves no count, no average and no data; retracting
   * Sally, who never voted, then leaves them so.
   */
  method PostUnrate() returns (count: int, average: Option<real>, data: seq<Vote>,
                               countAfter: int, averageAfter: Option<real>)
    ensures count == 0 && average == None && data == []
    ensures countAfter == 0 && averageAfter == None
  {
    var post := new RatingField(PostRate);
    var o := post.Rate(1.0, Bob);
    post.Unrate(Bob);
    count, average, data := post.count, post.Current(), post.data;
    post.Unrate(Sally);
    countAfter, averageAfter := post.count, post.Current();
  }

  /**
   * A comment (incremental branch) rated 2 by Bob: Sally's 3 gives 2.5, 9 is
   * refused, and the values read in insertion order.
   */
  method CommentWhenRated() returns (average: Option<real>, tooHigh: Outcome, values: seq<real>)
    ensures average == Some(2.5) && tooHigh == Raised(BadVoteValue) && values == [2.0, 3.0]
  {
    var comment := new RatingField(CommentRate);
    var o := comment.Rate(2.0, Bob);
    assert comment.data == [Vote(Bob, 2.0)];
    o := comment.Rate(3.0, Sally);
    assert comment.data == [Vote(Bob, 2.0), Vote(Sally, 3.0)];
    average := comment.Current();
    tooHigh := comment.Rate(9.0, Sally);
    values := Values(comment.data);
  }

  /** 8 lies outside `-5..5`: refused, and the article keeps no count, sum or average. */
  method ArticleOutOfRange() returns (rejected: Outcome, count: int, sum: real, average: Option<real>)
    ensures rejected == Raised(BadVoteValue) && count == 0 && sum == 0.0 && average == None
  {
    var article := new RatingField(ArticleOverall);
    rejected := article.Rate(8.0, Alice);
    count, sum, average := article.count, article.sum, article.Current();
  }

  /** Alice 3 and Bob -5: two votes, sum -2 and average -1.0. */
  method ArticleTwoRaters() returns (count: int, sum: real, average: Option<real>)
    ensures count == 2 && sum == -2.0 && average == Some(-1.0)
  {
    var article := new RatingField(ArticleOverall);
    var o := article.Rate(3.0, Alice);
    assert article.data == [Vote(Alice, 3.0)];
    o := article.Rate(-5.0, Bob);
    count, sum, average := article.count, article.sum, article.Current();
  }

  /** After Alice 3 and Bob -5, Alice's re-rate to 1 keeps the count at 2: sum -4, average -2.0. */
  method ArticleRecast() returns (count: int, sum: real, average: Option<real>)
    ensures count == 2 && sum == -4.0 && average == Some(-2.0)
  {
    var article := new RatingField(ArticleOverall);
    var o := article.Rate(3.0, Alice);
    assert article.data == [Vote(Alice, 3.0)];
    o := article.Rate(-5.0, Bob);
    assert article.data == [Vote(Alice, 3.0), Vote(Bob, -5.0)];
    assert article.count == 2 && article.sum == -2.0;
    assert ValueOfId(article.data, Alice.id) == 3.0;
    o := article.Rate(1.0, Alice);
    count, sum, average := article.count, article.sum, article.Current();
  }

  /** Alice 3, Bob -5, then Alice retracts: Bob's -5.0 is all that is left. */
  method ArticleRetract() returns (count: int, retracted: Option<real>)
    ensures count == 1 && retracted == Some(-5.0)
  {
    var article := new RatingField(ArticleOverall);
    var o := article.Rate(3.0, Alice);
    assert article.data == [Vote(Alice, 3.0)];
    o := article.Rate(-5.0, Bob);
    article.Unrate(Alice);
    count, retracted := article.count, article.Current();
  }

  /** With `float: false`, 2.7 is stored as 2 (truncated, not rounded) and -0.5 is refused as 0. */
  method WholeValues() returns (stored: Option<real>, negative: Outcome)
    ensures stored == Some(2.0) && negative == Raised(BadVoteValue)
  {
    var field := new RatingField(WholeRate);
    var o := field.Rate(2.7, Bob);
    stored := field.ValueBy(Bob);
    negative := field.Rate(-0.5, Alice);
  }

  /** With `rerate: false`, a second cast by the same rater is refused and changes nothing. */
  method NoRerate() returns (second: Outcome, kept: Option<real>)
    ensures second == Raised(CantRate) && kept == Some(4.0)
  {
    var field := new RatingField(Config(1, 5, false, true, true));
    var o := field.Rate(4.0, Bob);
    second := field.Rate(2.0, Bob);
    kept := field.ValueBy(Bob);
  }
}
