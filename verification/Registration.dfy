// gate/registration.py: the bounded registration loop.
module Registration {

  // What one post yields: a status code, or a transport error.
  datatype Post = Status(code: int) | Unreachable

  // _DEFAULT_RETRY_BASE_SECONDS
  const BASE := 1

  const TERMINAL := {400, 401, 403, 409, 422}

  predicate Accepts(post: Post) {
    post == Status(200)
  }

  predicate Rejects(post: Post) {
    post.Status? && post.code in {400, 401, 403, 409, 422}
  }

  function Pow2(n: nat): nat {
    if n == 0 then 1 else 2 * Pow2(n - 1)
  }

  // The loop of register_node against a Gate that answers the posts in turn.
  // It posts until one is accepted, one is rejected for good, or the retries are
  // used up, and sleeps 2^(k-1) - 1 seconds in all over k posts.
  method RegisterNode(gate: nat -> Post, retries: int) returns (registered: bool, posts: nat, slept: nat)
    ensures retries < 1 ==> !registered && posts == 0 && slept == 0
    ensures retries >= 1 ==>
      && 1 <= posts <= retries
      && (forall i :: 1 <= i < posts ==> !Accepts(gate(i)) && !Rejects(gate(i)))
      && (registered <==> Accepts(gate(posts)))
      && (Accepts(gate(posts)) || Rejects(gate(posts)) || posts == retries)
      && slept == Pow2(posts - 1) - 1
  {
    registered, posts, slept := false, 0, 0;
    var attempt := 1;
    while attempt < retries + 1
      invariant 1 <= attempt && (if retries >= 1 then attempt <= retries + 1 else attempt == 1)
      invariant posts == attempt - 1 && !registered
      invariant forall i :: 1 <= i < attempt ==> !Accepts(gate(i)) && !Rejects(gate(i))
      invariant slept == if attempt <= retries then Pow2(posts) - 1 else if posts == 0 then 0 else Pow2(posts - 1) - 1
    {
      posts := posts + 1;
      var post := gate(attempt);
      if post.Status? {
        if post.code == 200 {
          return true, posts, slept;
        }
        if post.code in TERMINAL {
          return false, posts, slept;
        }
      }
      if attempt < retries {
        slept := slept + BASE * Pow2(attempt - 1);
      }
      attempt := attempt + 1;
    }
  }
}
