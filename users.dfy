/** The user helpers: splitting a user list into batches and the engagement score. */
module UsersApi {
  import opened Values

  /** The default `batch_size` of `get_user_batch`. */
  const DefaultBatchSize: nat := 10

  function Min(a: int, b: int): int {
    if a <= b then a else b
  }

  /** The batches laid end to end. */
  function Concat<T>(batches: seq<seq<T>>): seq<T> {
    if batches == [] then [] else Concat(batches[..|batches| - 1]) + batches[|batches| - 1]
  }

  /** Appending the next slice extends the covered prefix. */
  lemma ConcatStep<T>(users: seq<T>, batches: seq<seq<T>>, i: nat, end: nat)
    requires i <= end <= |users| && Concat(batches) == users[..i]
    ensures Concat(batches + [users[i..end]]) == users[..end]
  {
    assert (batches + [users[i..end]])[..|batches|] == batches;
    assert users[..end] == users[..i] + users[i..end];
  }

  lemma MulMonotone(a: nat, b: nat, m: nat)
    requires a <= b
    ensures a * m <= b * m
  {
  }

  /** `(n + b - 1) / b` is the smallest `q` with `n <= q * b`. */
  lemma CeilDiv(n: nat, b: nat, q: nat)
    requires b > 0 && n <= q * b && (q == 0 || (q - 1) * b < n)
    ensures (n + b - 1) / b == q
  {
    var x := n + b - 1;
    assert q * b <= x < q * b + b;
    var d, r := x / b, x % b;
    assert x == d * b + r && 0 <= r < b;
    if d < q {
      MulMonotone(d + 1, q, b);
    } else if d > q {
      MulMonotone(q + 1, d, b);
    }
  }

  /** The `k`-th slice `users[k * b:(k + 1) * b]`, cut short at the end of the list. */
  function Batch<T>(users: seq<T>, b: nat, k: nat): seq<T>
    requires k * b < |users|
  {
    users[k * b..Min((k + 1) * b, |users|)]
  }

  /** `batches` are the first `|batches|` slices of `users`. */
  ghost predicate BatchesSoFar<T>(users: seq<T>, b: nat, batches: seq<seq<T>>) {
    forall k :: 0 <= k < |batches| ==> k * b < |users| && batches[k] == Batch(users, b, k)
  }

  lemma MulSucc(k: nat, b: nat)
    ensures (k + 1) * b == k * b + b
  {
  }

  lemma BatchStep<T>(users: seq<T>, b: nat, batches: seq<seq<T>>, i: nat)
    requires b > 0 && i == |batches| * b && i < |users|
    requires BatchesSoFar(users, b, batches)
    ensures BatchesSoFar(users, b, batches + [users[i..Min(i + b, |users|)]])
  {
    MulSucc(|batches|, b);
  }

  /** The loop state of `get_user_batch` once `batches` holds the slices before offset `i`. */
  ghost predicate Batching<T>(users: seq<T>, b: nat, batches: seq<seq<T>>, i: nat) {
    && i == |batches| * b
    && (|batches| > 0 ==> (|batches| - 1) * b < |users|)
    && BatchesSoFar(users, b, batches)
    && Concat(batches) == users[..Min(i, |users|)]
  }

  lemma BatchingStep<T>(users: seq<T>, b: nat, batches: seq<seq<T>>, i: nat)
    requires b > 0 && i < |users| && Batching(users, b, batches, i)
    ensures Batching(users, b, batches + [users[i..Min(i + b, |users|)]], i + b)
  {
    ConcatStep(users, batches, i, Min(i + b, |users|));
    BatchStep(users, b, batches, i);
    MulSucc(|batches|, b);
  }

  /** `batches` cut `users` into consecutive slices of `b`: together they are `users`, there are
      `ceil(|users| / b)` of them, each is the slice at its offset, every one but the last is full
      and the last is not empty. */
  ghost predicate IsBatching<T>(users: seq<T>, b: nat, batches: seq<seq<T>>)
    requires b > 0
  {
    && Concat(batches) == users
    && |batches| == (|users| + b - 1) / b
    && BatchesSoFar(users, b, batches)
    && (forall k :: 0 <= k < |batches| - 1 ==> |batches[k]| == b)
    && (|batches| > 0 ==> 1 <= |batches[|batches| - 1]| <= b)
  }

  /** `get_user_batch`: the consecutive slices of `batchSize` users, taken at offsets 0, `batchSize`, ...
      A step of 0 is an error (`None` here); a negative step yields no batches. */
  method GetUserBatch<T>(users: seq<T>, batchSize: int) returns (result: Option<seq<seq<T>>>)
    ensures result.None? <==> batchSize == 0
    ensures batchSize < 0 ==> result == Some([])
    ensures batchSize > 0 ==> result.Some? && IsBatching(users, batchSize, result.value)
  {
    if batchSize == 0 {
      return None;
    }
    var batches: seq<seq<T>> := [];
    if batchSize > 0 {
      var i := 0;
      while i < |users|
        invariant Batching(users, batchSize, batches, i)
        decreases |users| - i
      {
        BatchingStep(users, batchSize, batches, i);
        batches := batches + [users[i..Min(i + batchSize, |users|)]];
        i := i + batchSize;
      }
      BatchingDone(users, batchSize, batches, i);
    }
    return Some(batches);
  }

  lemma BatchingDone<T>(users: seq<T>, b: nat, batches: seq<seq<T>>, i: nat)
    requires b > 0 && |users| <= i && Batching(users, b, batches, i)
    ensures IsBatching(users, b, batches)
  {
    assert users[..|users|] == users;
    CeilDiv(|users|, b, |batches|);
    LastBatch(users, b, batches);
  }

  /** A slice that ends before the list does is full. */
  lemma FullBatch<T>(users: seq<T>, b: nat, k: nat, last: nat)
    requires k < last && last * b < |users|
    ensures k * b < |users| && |Batch(users, b, k)| == b
  {
    MulMonotone(k + 1, last, b);
    MulSucc(k, b);
  }

  /** The slice that reaches the end of the list holds between 1 and `b` users. */
  lemma FinalBatch<T>(users: seq<T>, b: nat, k: nat)
    requires k * b < |users| <= (k + 1) * b
    ensures 1 <= |Batch(users, b, k)| <= b
  {
    MulSucc(k, b);
  }

  /** Every slice but the last is full; the last is not empty. */
  lemma LastBatch<T>(users: seq<T>, b: nat, batches: seq<seq<T>>)
    requires b > 0 && BatchesSoFar(users, b, batches)
    requires |batches| > 0 ==> |users| <= |batches| * b
    ensures forall k :: 0 <= k < |batches| - 1 ==> |batches[k]| == b
    ensures |batches| > 0 ==> 1 <= |batches[|batches| - 1]| <= b
  {
    if |batches| > 0 {
      var last := |batches| - 1;
      forall k | 0 <= k < last
        ensures |batches[k]| == b
      {
        FullBatch(users, b, k, last);
      }
      FinalBatch(users, b, last);
    }
  }

  /** The dict keys `calculate_user_score` reads, the counts being numbers (`bool` counts as 0 or 1).
      Without them the function raises: a `KeyError`, or a `TypeError` from `0 + s * 5` for a string. */
  predicate HasScoreFields(user: Record) {
    && "login_count" in user && NumberOf(user["login_count"]).Some?
    && "posts" in user && NumberOf(user["posts"]).Some?
    && "comments" in user && NumberOf(user["comments"]).Some?
    && "premium" in user
  }

  /** The weighted activity: 5 per login, 10 per post, 2 per comment. */
  function WeightedActivity(user: Record): real
    requires HasScoreFields(user)
  {
    5.0 * NumberOf(user["login_count"]).value + 10.0 * NumberOf(user["posts"]).value
    + 2.0 * NumberOf(user["comments"]).value
  }

  /** `calculate_user_score`, accumulating into `score`; `None` where the function raises. */
  method CalculateUserScore(user: Record) returns (score: Option<real>)
    ensures score.None? <==> !HasScoreFields(user)
    ensures HasScoreFields(user) && !Truthy(user["premium"]) ==> score == Some(WeightedActivity(user))
    ensures HasScoreFields(user) && Truthy(user["premium"]) ==> score == Some(3.0 / 2.0 * WeightedActivity(user))
  {
    if !("login_count" in user && NumberOf(user["login_count"]).Some?) {
      return None;
    }
    var total := 0.0;
    total := total + NumberOf(user["login_count"]).value * 5.0;
    if !("posts" in user && NumberOf(user["posts"]).Some?) {
      return None;
    }
    total := total + NumberOf(user["posts"]).value * 10.0;
    if !("comments" in user && NumberOf(user["comments"]).Some?) {
      return None;
    }
    total := total + NumberOf(user["comments"]).value * 2.0;
    if "premium" !in user {
      return None;
    }
    if Truthy(user["premium"]) {
      total := total * 1.5;
    }
    return Some(total);
  }

  /** `get_user_batch` called without a batch size: slices of the default 10. */
  method GetUserBatchDefault<T>(users: seq<T>) returns (batches: seq<seq<T>>)
    ensures IsBatching(users, DefaultBatchSize, batches)
  {
    var result := GetUserBatch(users, DefaultBatchSize);
    batches := result.value;
  }
}
