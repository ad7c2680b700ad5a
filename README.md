# mongoid_rating: the per-field rating ledger

`rateable :field, options` makes a document rateable on one field. The document then
keeps an ordered list of votes, `<field>_data`. Each vote holds a rater reference (the
rater's class name and id) and a value. Beside the list it keeps three aggregate fields:
`<field>_count`, `<field>_sum` and `<field>_average`. This project models that ledger
for one field of one document.

- `votes.dfy`, module `Votes`: the vote record and the list operations.
  - `Sum` and `Values`.
  - The two rater lookups. `FindRater` matches on id and kind. `FindId` matches on the
    id only.
  - The two ways a rater's vote is deleted. `WithoutId` deletes every vote with the id
    (`destroy_all`). `WithoutFirstId` deletes the first one (`r.destroy`).
  - `Replace`: delete the id's votes, then append the new vote.
- `ledger.dfy`, module `Ledger`: the rest of the field.
  - `Config` holds the `rateable` options. `Defaults` is `1..5`, `rerate`, `float` and
    `eval` all on.
  - The coercion of a value, the range check and the average rule `CalcAvg`.
  - The class `RatingField`. It has the fields `data`, `count`, `sum` and `average`.
    Its mutators are `Rate` (`<field>!`), the eval branch `CastRecount` (its server-side
    loop is `Recount`), the incremental branch `CastIncremental` and `Unrate`
    (`un<field>!`). Its readers are `RawBy`, `DidRate`, `CanRate`, `ValueBy`, `RatedBy`
    and `Current` (`<field>` called with no arguments).
- `scenarios.dfy`, module `Scenarios`: the fields of the example models `Article`
  (`-5..5`), `Post` (defaults) and `Comment` (`eval: false`). Each scenario is proved
  from the ledger's contracts alone.
  - The `Post*` and `Comment*` scenarios state what spec/post_spec.rb and
    spec/comment_spec.rb expect.
  - The `Article*`, `WholeValues` and `NoRerate` scenarios follow the code of `<field>!`
    and `un<field>!` (model.rb:55-62 and 109-120), not a specification file.

The class invariant `Valid()` is `Consistent`:
- count is the length of the list;
- sum is the total of the values;
- average is `CalcAvg(sum, count)`, so it is absent exactly when there are no votes;
- no two votes share a rater id;
- every stored value lies in the range, and is whole when `float` is off.

Both branches of `<field>!` and `un<field>!` preserve it. Both branches end in the same
list, so they end in the same aggregate. `BranchesAgree` states this at the level of
values.

The readers look a rater up by id and kind. The delete in `un<field>!` and in the eval
branch matches on `rater_id` alone. The model keeps these lookups apart. One consequence
is proved in `CastDisplacesSharedId`: a cast by one rater deletes the vote of a rater of
another class that has the same id.

The model follows the code in three places a reader might not expect:
- The code has two update strategies, chosen by `eval`, and both are modelled.
- Retraction and the delete before a cast match on the rater id only. They do not match
  on id and kind.
- A value is cut to an integer only when `float: false` is set.

## Model

| member | source | states |
|---|---|---|
| `Ledger.RatingField.constructor` | lib/mongoid_rating/model.rb:29-40 | a new field has no votes, count 0, sum 0 and no average, and is consistent |
| `Ledger.RatingField.Rate` | lib/mongoid_rating/model.rb:54-101 | "bad vote value" exactly when the coerced value is outside the range; "can't rate" exactly when it is inside and `can_<field>?` was false; either error leaves every field unchanged; on success the list is the rater id's votes deleted plus the new vote, the id-and-kind lookup finds the new vote last with the coerced value, count rises by one only if the id had no vote, sum moves by the new value minus the old one, and the invariant holds |
| `Ledger.Truncate` | lib/mongoid_rating/model.rb:55 | `to_i` drops the fractional part toward zero: the result is the integer within 1 of x on x's side of zero, so 2.7 becomes 2, not 3 |
| `Ledger.RatingField.CastRecount` | lib/mongoid_rating/model.rb:60-92 | eval branch: the list becomes the rater id's votes deleted plus the new vote, and count, sum and average are recounted from it, so the invariant holds |
| `Ledger.Recount` | lib/mongoid_rating/model.rb:69-76 | the server-side loop over the list yields its length as the count and its total as the sum |
| `Ledger.RatingField.CastIncremental` | lib/mongoid_rating/model.rb:93-100 | incremental branch: retract, then add one to count and the value to sum, append and recompute the average; ends in the same list as the eval branch, with the invariant kept |
| `Ledger.BranchesAgree` | lib/mongoid_rating/model.rb:60-100 | from a consistent state the incremental count and sum equal the recount of the new list, their average is the script's quotient, and retract-then-append gives the delete-all-then-append list |
| `Ledger.CalcAvg` | lib/mongoid_rating/model.rb:102-108 | no average iff count < 1; otherwise the average times the count is the sum |
| `Ledger.AverageWithinRange` | lib/mongoid_rating/model.rb:56-58 | in a consistent field every stored value passed the range check, so the average lies within the range |
| `Ledger.RatingField.Unrate` | lib/mongoid_rating/model.rb:109-120 | the first vote with the rater's id (any kind) is deleted; count drops by one and sum by its value when there was one; without one nothing changes; no vote with that id remains; retracting the only vote leaves an empty list, count 0 and no average; the invariant holds |
| `Ledger.RatingField.DidRate` | lib/mongoid_rating/model.rb:123-125 | true iff some vote has the rater's id and kind |
| `Ledger.RatingField.CanRate` | lib/mongoid_rating/model.rb:127-133 | always true with `rerate`; otherwise true iff no vote has the rater's id and kind |
| `Ledger.RatingField.RawBy` | lib/mongoid_rating/model.rb:135-139 | the first vote whose rater matches id and kind, and none iff no vote matches |
| `Ledger.RatingField.Current` | lib/mongoid_rating/model.rb:141-147 | the stored average: none iff there are no votes, otherwise times the number of votes it gives their sum |
| `Votes.Values` | lib/mongoid_rating/model.rb:149-151 | the vote values, one per vote, in insertion order |
| `Ledger.RatingField.ValueBy` | lib/mongoid_rating/model.rb:153-160 | a value iff the rater (id and kind) has voted, and then a vote of that rater with that value is in the list |
| `Ledger.RatingField.RatedBy` | lib/mongoid_rating/model.rb:161-163 | equivalent to `DidRate`, i.e. a vote with the rater's id and kind exists |
| `Ledger.DefaultsAccept` | lib/mongoid_rating/model.rb:19-25 | under the default options a value is taken as given, accepted exactly when it lies in `1..5`, re-rating is allowed and the eval branch is taken |
| `Ledger.Coerce` | lib/mongoid_rating/model.rb:55 | with `float` the value is kept; without it the result is whole and is the integer next to the value on the side of zero |
| `Ledger.InRange` | lib/mongoid_rating/model.rb:56 | an empty range takes nothing; a whole value is taken exactly when it lies between the bounds, both included |
| `Votes.Replace` | lib/mongoid_rating/model.rb:61-62 | the new vote is last, and every vote before it was in the old list and has another rater id |
| `Votes.WithoutFirstId` | lib/mongoid_rating/model.rb:110-117 | without a vote of the id the list is unchanged; otherwise the vote `FindId` finds is deleted and the rest keep their order (one shorter, earlier positions kept, later ones shifted by one) |
| `Votes.FindRater` | lib/mongoid_rating/model.rb:136-138 | index of the first vote whose rater equals the given one (id and kind); none iff no vote matches |
| `Votes.FindId` | lib/mongoid_rating/model.rb:110 | index of the first vote with the given rater id, whatever its kind; none iff no vote has that id |
| `Votes.WithoutId` | lib/mongoid_rating/model.rb:61 | every remaining vote was in the list and has another id |
| `Votes.WithoutIdKeepsOthers` | lib/mongoid_rating/model.rb:61 | every vote of another id survives the delete |
| `Votes.WithoutIdIsWithoutFirstId` | lib/mongoid_rating/model.rb:110-117 | with unique rater ids, deleting all votes of an id equals deleting the first one |
| `Votes.ReplaceKeepsOneVote` | lib/mongoid_rating/model.rb:61-62 | after a cast the caster's id has exactly one vote, the new one, last in the list, and both lookups find it |
| `Votes.ReplaceUnique` | lib/mongoid_rating/model.rb:61-62 | a cast keeps rater ids unique |
| `Votes.ReplaceTally` | lib/mongoid_rating/model.rb:94-98 | a cast keeps the length when the id had a vote and adds one otherwise; the sum moves by the new value minus the old (0 if none) |
| `Votes.CastDisplacesSharedId` | lib/mongoid_rating/model.rb:61 | a cast deletes the vote of any rater of another kind with the caster's id, which the id-and-kind lookup then no longer finds |
| `Votes.RetractTally` | lib/mongoid_rating/model.rb:110-117 | deleting the first vote of an id takes one off the length and its value off the sum, leaves no vote of that id and keeps ids unique |
| `Votes.SumRemoveAt` | lib/mongoid_rating/model.rb:115 | deleting a vote takes exactly its value off the sum |
| `Votes.SumBounds` | lib/mongoid_rating/model.rb:56-58 | values within `[low, high]` give a sum within `[n * low, n * high]` |
| `Scenarios.PostTwoRaters` | spec/post_spec.rb:106-120 | Bob 1 and Sally 4 on a post give count 2 and average 2.5; Bob's value reads 1 and Alice's nothing |
| `Scenarios.PostOutOfRange` | spec/post_spec.rb:51-54 | 17 and -17 raise "bad vote value" and no vote is counted |
| `Scenarios.PostRerate` | spec/post_spec.rb:42-45 | Bob's re-rate from 1 to 5 leaves one vote and average 5.0 |
| `Scenarios.PostUnrate` | spec/post_spec.rb:87-97 | retracting Bob's only vote leaves count 0, no average and no data; retracting Sally, who never voted, then keeps count 0 and no average |
| `Scenarios.CommentWhenRated` | spec/comment_spec.rb:52-74 | on the incremental branch Bob 2 and Sally 3 average 2.5, 9 is refused, values read 2 then 3 |
| `Scenarios.ArticleOutOfRange` | spec/models/article.rb:6 | on `-5..5`, 8 is refused and count, sum and average stay 0, 0 and absent (the model's sum starts at 0; the source's `overall_sum` is nil here) |
| `Scenarios.ArticleTwoRaters` | lib/mongoid_rating/model.rb:60-92 | on `-5..5`, Alice 3 and Bob -5 give count 2, sum -2, average -1.0 |
| `Scenarios.ArticleRecast` | lib/mongoid_rating/model.rb:60-62 | Alice's re-rate from 3 to 1 keeps count 2 and gives sum -4, average -2.0 |
| `Scenarios.ArticleRetract` | lib/mongoid_rating/model.rb:109-120 | after Alice 3 and Bob -5, Alice's retraction leaves count 1 and average -5.0 |
| `Scenarios.WholeValues` | lib/mongoid_rating/model.rb:55-58 | with `float: false`, 2.7 is stored as 2 and -0.5 truncates to 0, outside `1..5`, and is refused |
| `Scenarios.NoRerate` | lib/mongoid_rating/model.rb:59 | with `rerate: false`, Bob's second cast raises "can't rate" and his first value 4 stays |

## Left out

- The database mechanics of the eval branch are not modelled: the `eval` command,
  `with_primary`, `printjson` and `db.save`. Only their effect is modelled, a recount of
  the stored list.
- The script's "document not found" path is left out. The script looks the document up by
  its own id in the model's top-level collection, so the lookup fails for a document that
  was never saved and for any rateable model embedded in another document with `eval`
  on (the `Comment` example avoids this with `eval: false`). The script then returns
  false, and reading `_count` from that result raises. By then the vote has already
  been deleted and re-created, so on this path `<field>!` raises and leaves the list out
  of step with count, sum and average. `CastRecount` models only the path where the
  document is found, and its `Valid()` promise holds only there.
- `atomically`, `inc` and `set` become plain sequential field updates. Concurrent
  writers and lost updates are not modelled.
- Dirty tracking with `remove_change` is left out. It is ORM bookkeeping.
- The query scopes `<field>_by`, `<field>_in` and `highest_<field>` are left out. They
  build database queries.
- The `counters` option and `counter_cache` are left out. The logic never reads them.
- The `Rate` document's timestamps and admin label are left out.
- Values are exact reals. Sums and averages are exact, with no floating-point rounding.
- A value is a number. Ruby's coercion of strings and other objects with `to_i` is not
  modelled.
- Ranges are inclusive with integer bounds, which is the form every caller uses.
  Exclusive ranges and float bounds are not modelled.
- `<field>_sum` has no default and starts as nil. The model starts it at 0. It is never
  read while the count is 0, and `inc` treats nil as 0.
- The nil test on `<field>_count` in `<field>()` is left out. The count defaults to 0,
  so the test never holds.
- `<field>(value, rater)` called with arguments only forwards to `<field>!`, so it is the
  same member as `Rate`. A call with exactly one argument nil is not modelled.
- `un<field>` is an alias of `un<field>!` and is not a separate member.
- Some tests in the specification files are not followed, because the code disagrees
  with them. spec/article_spec.rb:202-203 casts 8 and -10 on `-5..5` and expects both to
  be counted; the code refuses them. spec/article_spec.rb:117-172 and 239-252 call
  methods the code does not define (`rating`, `previous_rating`, `rating_delta`,
  `unweighted_rating`, `user_mark`, `overall_and_save` and class-level `overall` and
  `unoverall`). spec/comment_spec.rb:33-43 expects `Comment` to cut values to integers
  and to read strings, which the code does not do for a field with `float` on.
- Rater ids are natural numbers. They stand for the ObjectIds of the source.
