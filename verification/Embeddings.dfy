/** Hash embeddings and cosine similarity, over exact reals. */
module Embeddings {
  import Chunking
  import Retrieval

  /** The square root is known only by what it is for. */
  ghost predicate IsRoot(root: real -> real) {
    forall x :: x >= 0.0 ==> root(x) >= 0.0 && root(x) * root(x) == x
  }

  /** Pairs up components as far as both vectors go. */
  function Dot(a: seq<real>, b: seq<real>): real {
    if a == [] || b == [] then 0.0 else a[0] * b[0] + Dot(a[1..], b[1..])
  }

  function SquaredNorm(a: seq<real>): (n: real)
    ensures n >= 0.0
  {
    if a == [] then 0.0 else a[0] * a[0] + SquaredNorm(a[1..])
  }

  function CosineSimilarity(left: seq<real>, right: seq<real>, root: real -> real): real {
    if left == [] || right == [] then 0.0
    else
      var l, r := root(SquaredNorm(left)), root(SquaredNorm(right));
      if l == 0.0 || r == 0.0 then 0.0 else Quotient(Dot(left, right), l * r)
  }

  function Quotient(x: real, y: real): real {
    if y == 0.0 then 0.0 else x / y
  }

  // ---- Cauchy and Schwarz ----

  lemma ProductOfSquares(x: real, y: real)
    ensures (x * y) * (x * y) == (x * x) * (y * y)
  {
  }

  lemma ProductIsPositive(x: real, y: real, product: real)
    requires x > 0.0 && y > 0.0 && product == x * y
    ensures product > 0.0
  {
  }

  lemma SquareIsPositive(x: real, square: real)
    requires x != 0.0 && square == x * x
    ensures square > 0.0
  {
    if x > 0.0 {
      ProductIsPositive(x, x, square);
    } else {
      var y := -x;
      assert square == y * y;
      ProductIsPositive(y, y, square);
    }
  }

  lemma SquareIsNonNegative(x: real)
    ensures x * x >= 0.0
  {
  }

  lemma NonNegativeFactor(a: real, z: real)
    requires a > 0.0 && a * z >= 0.0
    ensures z >= 0.0
  {
  }

  lemma Monotone(x: real, y: real, z: real)
    requires x <= y && z >= 0.0
    ensures x * z <= y * z
  {
  }

  /** The mixed term is at most the sum of the outer ones. */
  lemma MixedTerm(a: real, b: real, d: real, x: real, y: real)
    requires a >= 0.0 && b >= 0.0 && d * d <= a * b
    ensures 2.0 * d * (x * y) <= a * (y * y) + b * (x * x)
  {
    if a == 0.0 {
      assert a * b == 0.0;
      if d != 0.0 {
        SquareIsPositive(d, d * d);
      }
      SquareIsNonNegative(x);
      assert b * (x * x) >= 0.0;
    } else {
      var z := a * (y * y) + b * (x * x) - 2.0 * d * (x * y);
      var square := (a * y - d * x) * (a * y - d * x);
      SquareIsNonNegative(x);
      SquareIsNonNegative(a * y - d * x);
      Monotone(d * d, a * b, x * x);
      assert square == (a * y) * (a * y) - 2.0 * ((a * y) * (d * x)) + (d * x) * (d * x);
      assert (d * x) * (d * x) == (d * d) * (x * x);
      assert a * z == (a * y) * (a * y) - 2.0 * ((a * y) * (d * x)) + (a * b) * (x * x);
      assert a * z >= square;
      NonNegativeFactor(a, z);
    }
  }

  /** Squared dot products never exceed the product of squared norms, whatever the lengths. */
  lemma {:induction false} CauchySchwarz(a: seq<real>, b: seq<real>)
    ensures Dot(a, b) * Dot(a, b) <= SquaredNorm(a) * SquaredNorm(b)
  {
    if a == [] || b == [] {
      assert SquaredNorm(a) * SquaredNorm(b) >= 0.0;
    } else {
      var x, y := a[0], b[0];
      var d, p, q := Dot(a[1..], b[1..]), SquaredNorm(a[1..]), SquaredNorm(b[1..]);
      CauchySchwarz(a[1..], b[1..]);
      MixedTerm(p, q, d, x, y);
      ProductOfSquares(x, y);
      Expand(x * y, d);
      ExpandProduct(x * x, p, y * y, q);
    }
  }

  lemma Expand(u: real, d: real)
    ensures (u + d) * (u + d) == u * u + 2.0 * d * u + d * d
  {
  }

  lemma ExpandProduct(a: real, b: real, c: real, d: real)
    ensures (a + b) * (c + d) == a * c + a * d + b * c + b * d
  {
  }

  lemma SquaresOrder(x: real, y: real)
    requires y >= 0.0 && x * x <= y * y
    ensures -y <= x <= y
  {
    if x > y {
      assert x * x == y * y + (x - y) * (x + y);
      ProductIsPositive(x - y, x + y, x * x - y * y);
    } else if x < -y {
      assert x * x == y * y + (-x - y) * (-x + y);
      ProductIsPositive(-x - y, -x + y, x * x - y * y);
    }
  }

  lemma QuotientBounds(x: real, y: real)
    requires y > 0.0 && -y <= x <= y
    ensures -1.0 <= Quotient(x, y) <= 1.0
  {
  }

  lemma CosineIsBounded(left: seq<real>, right: seq<real>, root: real -> real)
    requires IsRoot(root)
    ensures -1.0 <= CosineSimilarity(left, right, root) <= 1.0
  {
    var p, q := SquaredNorm(left), SquaredNorm(right);
    var l, r := root(p), root(q);
    if left != [] && right != [] && l != 0.0 && r != 0.0 {
      CauchySchwarz(left, right);
      ProductOfSquares(l, r);
      assert l * r > 0.0;
      SquaresOrder(Dot(left, right), l * r);
      QuotientBounds(Dot(left, right), l * r);
    }
  }

  // ---- What similarity is ----

  /** The dot product is the sum of the products, pair by pair. */
  lemma {:induction false} DotAddsUp(a: seq<real>, b: seq<real>, x: real, y: real)
    requires |a| == |b|
    ensures Dot(a + [x], b + [y]) == Dot(a, b) + x * y
  {
    if a == [] {
      assert ([] + [x])[1..] == [] && ([] + [y])[1..] == [];
    } else {
      DotAddsUp(a[1..], b[1..], x, y);
      assert (a + [x])[1..] == a[1..] + [x] && (b + [y])[1..] == b[1..] + [y];
    }
  }

  /** What one vector has beyond the other does not count; with itself a vector gives its squared norm. */
  lemma {:induction false} DotOverlap(a: seq<real>, b: seq<real>, more: seq<real>)
    requires |a| == |b|
    ensures Dot(a + more, b) == Dot(a, b) == Dot(b, a) == Dot(b, a + more)
    ensures Dot(a, a) == SquaredNorm(a)
  {
    if a == [] {
    } else {
      DotOverlap(a[1..], b[1..], more);
      assert (a + more)[1..] == a[1..] + more;
    }
  }

  /** Similarity times the two lengths is the dot product; where a length is zero, the similarity is. */
  lemma CosineMeans(left: seq<real>, right: seq<real>, root: real -> real)
    requires IsRoot(root)
    ensures var l, r := root(SquaredNorm(left)), root(SquaredNorm(right));
            if SquaredNorm(left) > 0.0 && SquaredNorm(right) > 0.0
            then l > 0.0 && r > 0.0 && CosineSimilarity(left, right, root) * (l * r) == Dot(left, right)
            else CosineSimilarity(left, right, root) == 0.0
  {
    RootVanishes(SquaredNorm(left), root);
    RootVanishes(SquaredNorm(right), root);
    var l, r := root(SquaredNorm(left)), root(SquaredNorm(right));
    if SquaredNorm(left) > 0.0 && SquaredNorm(right) > 0.0 {
      ProductIsPositive(l, r, l * r);
      QuotientUndoes(Dot(left, right), l * r);
    }
  }

  lemma RootVanishes(x: real, root: real -> real)
    requires IsRoot(root) && x >= 0.0
    ensures root(x) >= 0.0 && (root(x) > 0.0 <==> x > 0.0)
  {
    if root(x) > 0.0 {
      SquareIsPositive(root(x), x);
    } else {
      assert root(x) * root(x) == x;
    }
  }

  lemma QuotientUndoes(x: real, y: real)
    requires y > 0.0
    ensures Quotient(x, y) * y == x
  {
  }

  lemma Distributes(k: real, x: real, y: real)
    ensures k * (x + y) == k * x + k * y
  {
  }

  lemma Associates(x: real, y: real, z: real)
    ensures x * (y * z) == (x * y) * z
  {
  }

  lemma Commutes(x: real, y: real)
    ensures x * y == y * x
  {
  }

  /** What agrees after multiplying by something positive agrees. */
  lemma Cancels(x: real, y: real, factor: real)
    requires factor > 0.0 && x * factor == y * factor
    ensures x == y
  {
    if x > y {
      ProductIsPositive(x - y, factor, (x - y) * factor);
    } else if x < y {
      ProductIsPositive(y - x, factor, (y - x) * factor);
    }
  }

  function Times(k: real, v: seq<real>): (w: seq<real>)
    ensures |w| == |v|
  {
    seq(|v|, i requires 0 <= i < |v| => k * v[i])
  }

  lemma TimesTail(k: real, v: seq<real>)
    requires v != []
    ensures Times(k, v)[0] == k * v[0] && Times(k, v)[1..] == Times(k, v[1..])
  {
    forall i | 0 <= i < |v| - 1
      ensures Times(k, v)[1..][i] == Times(k, v[1..])[i]
    {
      var x := v[i + 1];
      assert v[1..][i] == x;
      assert Times(k, v)[i + 1] == k * x;
    }
  }

  lemma {:induction false} DotTimes(k: real, v: seq<real>, w: seq<real>)
    ensures Dot(Times(k, v), w) == k * Dot(v, w)
  {
    if v != [] && w != [] {
      DotTimes(k, v[1..], w[1..]);
      TimesTail(k, v);
      Distributes(k, v[0] * w[0], Dot(v[1..], w[1..]));
      Associates(k, v[0], w[0]);
    }
  }

  lemma {:induction false} NormTimes(k: real, square: real, v: seq<real>)
    requires square == k * k
    ensures SquaredNorm(Times(k, v)) == square * SquaredNorm(v)
  {
    if v != [] {
      NormTimes(k, square, v[1..]);
      TimesTail(k, v);
      Distributes(square, v[0] * v[0], SquaredNorm(v[1..]));
      ProductOfSquares(k, v[0]);
    }
  }

  /** There is one root that is not negative. */
  lemma RootUnique(x: real, y: real, square: real)
    requires x >= 0.0 && y >= 0.0 && x * x == square && y * y == square
    ensures x == y
  {
    SquaresOrder(x, y);
    SquaresOrder(y, x);
  }

  /** A vector that is not zero is as similar as can be to itself, and as dissimilar as can be to its negation. */
  lemma SimilarToItself(v: seq<real>, root: real -> real)
    requires IsRoot(root) && SquaredNorm(v) > 0.0
    ensures CosineSimilarity(v, v, root) == 1.0
    ensures CosineSimilarity(v, Times(-1.0, v), root) == -1.0
  {
    hide CosineSimilarity, Dot, SquaredNorm, Times;
    var n, w := SquaredNorm(v), Times(-1.0, v);
    NormTimes(-1.0, 1.0, v);
    DotOverlap(v, v, []);
    DotOverlap(v, w, []);
    DotTimes(-1.0, v, v);
    CosineMeans(v, v, root);
    CosineMeans(v, w, root);
    assert SquaredNorm(w) == n && Dot(v, w) == -n && root(n) * root(n) == n;
    Cancels(CosineSimilarity(v, v, root), 1.0, n);
    Cancels(CosineSimilarity(v, w, root), -1.0, n);
  }

  /** The length of a vector does not matter to its similarity with others. */
  lemma LengthDoesNotMatter(k: real, v: seq<real>, w: seq<real>, root: real -> real)
    requires IsRoot(root) && k > 0.0
    ensures CosineSimilarity(Times(k, v), w, root) == CosineSimilarity(v, w, root)
  {
    hide CosineSimilarity, Dot, SquaredNorm, Times;
    var kv := Times(k, v);
    var n, kn, square := SquaredNorm(v), SquaredNorm(kv), k * k;
    NormTimes(k, square, v);
    CosineMeans(v, w, root);
    CosineMeans(kv, w, root);
    SquareIsPositive(k, square);
    if n > 0.0 && SquaredNorm(w) > 0.0 {
      ProductIsPositive(square, n, kn);
      ScaledRoot(k, root(n), square, n, kn, root);
      DotTimes(k, v, w);
      SameQuotient(k, root(n), root(kn), root(SquaredNorm(w)), CosineSimilarity(v, w, root),
                   CosineSimilarity(kv, w, root), Dot(v, w), Dot(kv, w));
    }
  }

  lemma SameQuotient(k: real, l: real, kl: real, r: real, x: real, y: real, d: real, kd: real)
    requires k > 0.0 && l > 0.0 && r > 0.0 && kl == k * l && kd == k * d
    requires x * (l * r) == d && y * (kl * r) == kd
    ensures x == y
  {
    var p := l * r;
    ProductIsPositive(l, r, p);
    ProductIsPositive(k, p, k * p);
    Associates(k, l, r);
    Associates(k, x, p);
    Commutes(k, x);
    Associates(x, k, p);
    Cancels(x, y, k * p);
  }

  lemma ScaledRoot(k: real, l: real, square: real, n: real, kn: real, root: real -> real)
    requires IsRoot(root) && k > 0.0 && l >= 0.0 && square == k * k && n == l * l && kn == square * n && kn >= 0.0
    ensures root(kn) == k * l
  {
    ProductOfSquares(k, l);
    if l > 0.0 {
      ProductIsPositive(k, l, k * l);
    }
    RootUnique(root(kn), k * l, kn);
  }

  function Cosine(root: real -> real): Retrieval.Similarity {
    (a, b) => CosineSimilarity(a, b, root)
  }

  /** So every score a search reports lies between 0 and 1. */
  lemma ScoresAreFractions(records: seq<Retrieval.ChunkRecord>, root: real -> real, q: seq<real>, f: Retrieval.Filter,
                           i: nat)
    requires IsRoot(root) && i < |Retrieval.Query(records, Cosine(root), q, f)|
    ensures 0.0 <= Retrieval.Query(records, Cosine(root), q, f)[i].score <= 1.0
  {
    CosineIsBounded(Retrieval.Top(records, Cosine(root), q, f)[i].embedding, q, root);
  }

  // ---- Embedding a text ----

  /** The two digest bytes the embedding looks at. */
  type Digest = string -> (nat, nat)

  function Slot(token: string, dimension: nat, digest: Digest): nat
    requires dimension > 0
  {
    digest(token).0 % dimension
  }

  function Sign(token: string, digest: Digest): real {
    if digest(token).1 % 2 == 0 then 1.0 else -1.0
  }

  function Share(token: string, dimension: nat, digest: Digest, j: nat): real
    requires dimension > 0
  {
    if Slot(token, dimension, digest) == j then Sign(token, digest) else 0.0
  }

  /** The sum of the tokens' shares of component `j`. */
  function Component(tokens: seq<string>, dimension: nat, digest: Digest, j: nat): real
    requires dimension > 0
  {
    if tokens == [] then 0.0
    else Component(tokens[..|tokens| - 1], dimension, digest, j) + Share(tokens[|tokens| - 1], dimension, digest, j)
  }

  function Sums(tokens: seq<string>, dimension: nat, digest: Digest): (values: seq<real>)
    requires dimension > 0
    ensures |values| == dimension
  {
    seq(dimension, j requires 0 <= j < dimension => Component(tokens, dimension, digest, j))
  }

  function Scaled(values: seq<real>, norm: real): (scaled: seq<real>)
    ensures |scaled| == |values|
  {
    seq(|values|, j requires 0 <= j < |values| => Quotient(values[j], norm))
  }

  /** The zero vector when the tokens cancel out, else the sums brought to length one. */
  function Embedding(tokens: seq<string>, dimension: nat, digest: Digest, root: real -> real): seq<real>
    requires dimension > 0
  {
    var sums := Sums(tokens, dimension, digest);
    Scaled(sums, root(SquaredNorm(sums)))
  }

  /** How a text is brought to lower case; nothing is assumed of it. */
  type Casing = string -> string

  /**
   * Lower-cases and splits the text, adds each token's sign to its slot in place, and divides by the
   * length. A text without tokens embeds to zero, like one whose tokens cancel out.
   */
  method EmbedText(text: string, lower: Casing, isSpace: char -> bool, dimension: nat, digest: Digest,
                   root: real -> real)
    returns (r: seq<real>)
    requires dimension > 0 && IsRoot(root)
    ensures r == Embedding(Chunking.Split(lower(text), isSpace), dimension, digest, root)
  {
    var values := new real[dimension](_ => 0.0);
    var tokens := Chunking.Split(lower(text), isSpace);
    if tokens == [] {
      NothingEmbedded(dimension, digest, root);
      return values[..];
    }
    hide SquaredNorm, Component;
    NoSums(dimension, digest);
    for i := 0 to |tokens|
      invariant values[..] == Sums(tokens[..i], dimension, digest)
    {
      OneMoreToken(tokens, dimension, digest, i);
      var slot := digest(tokens[i]).0 % dimension;
      var sign := if digest(tokens[i]).1 % 2 == 0 then 1.0 else -1.0;
      values[slot] := values[slot] + sign;
    }
    assert tokens[..|tokens|] == tokens;
    var norm := root(SquaredNorm(values[..]));
    if norm == 0.0 {
      r := seq(dimension, _ => 0.0);
    } else {
      r := seq(dimension, j requires 0 <= j < dimension reads values => values[j] / norm);
    }
  }

  /** The tokens that add one to component `j`, or take one from it. */
  function Votes(tokens: seq<string>, dimension: nat, digest: Digest, j: nat, even: bool, n: nat): set<nat>
    requires dimension > 0 && n <= |tokens|
  {
    set i: nat | i < n && digest(tokens[i]).0 % dimension == j && (digest(tokens[i]).1 % 2 == 0) == even
  }

  lemma OneMoreVote(tokens: seq<string>, dimension: nat, digest: Digest, j: nat, even: bool, n: nat)
    requires dimension > 0 && n < |tokens|
    ensures |Votes(tokens, dimension, digest, j, even, n + 1)|
            == |Votes(tokens, dimension, digest, j, even, n)|
               + if digest(tokens[n]).0 % dimension == j && (digest(tokens[n]).1 % 2 == 0) == even then 1 else 0
  {
    var votes := Votes(tokens, dimension, digest, j, even, n);
    if digest(tokens[n]).0 % dimension == j && (digest(tokens[n]).1 % 2 == 0) == even {
      assert Votes(tokens, dimension, digest, j, even, n + 1) == votes + {n};
    } else {
      assert Votes(tokens, dimension, digest, j, even, n + 1) == votes;
    }
  }

  lemma {:induction false} ComponentCounts(tokens: seq<string>, dimension: nat, digest: Digest, j: nat, n: nat)
    requires dimension > 0 && n <= |tokens|
    ensures Component(tokens[..n], dimension, digest, j)
            == (|Votes(tokens, dimension, digest, j, true, n)|
                - |Votes(tokens, dimension, digest, j, false, n)|) as real
  {
    if n == 0 {
      assert Votes(tokens, dimension, digest, j, true, 0) == {} && Votes(tokens, dimension, digest, j, false, 0) == {};
    } else {
      hide Votes;
      ComponentCounts(tokens, dimension, digest, j, n - 1);
      OneMoreVote(tokens, dimension, digest, j, true, n - 1);
      OneMoreVote(tokens, dimension, digest, j, false, n - 1);
      assert tokens[..n][..n - 1] == tokens[..n - 1];
    }
  }

  /** Component by component: the tokens for it less those against, brought to a common length. */
  lemma EmbeddingCounts(tokens: seq<string>, dimension: nat, digest: Digest, root: real -> real, j: nat)
    requires dimension > 0 && IsRoot(root) && j < dimension
    ensures var e := Embedding(tokens, dimension, digest, root);
            var length := root(SquaredNorm(Sums(tokens, dimension, digest)));
            var count := (|Votes(tokens, dimension, digest, j, true, |tokens|)|
                          - |Votes(tokens, dimension, digest, j, false, |tokens|)|) as real;
            && |e| == dimension && Sums(tokens, dimension, digest)[j] == count
            && length >= 0.0 && (if length > 0.0 then e[j] * length == count else e[j] == 0.0)
  {
    hide Votes;
    ComponentCounts(tokens, dimension, digest, j, |tokens|);
    assert tokens[..|tokens|] == tokens;
    var sums := Sums(tokens, dimension, digest);
    RootVanishes(SquaredNorm(sums), root);
    if root(SquaredNorm(sums)) > 0.0 {
      QuotientUndoes(sums[j], root(SquaredNorm(sums)));
    }
  }

  lemma NoSums(dimension: nat, digest: Digest)
    requires dimension > 0
    ensures Sums([], dimension, digest) == seq(dimension, _ => 0.0)
  {
  }

  lemma OneMoreToken(tokens: seq<string>, dimension: nat, digest: Digest, i: nat)
    requires dimension > 0 && i < |tokens|
    ensures forall j :: 0 <= j < dimension ==>
              Sums(tokens[..i + 1], dimension, digest)[j]
              == Sums(tokens[..i], dimension, digest)[j] + Share(tokens[i], dimension, digest, j)
  {
    assert tokens[..i + 1][..i] == tokens[..i];
  }

  lemma NothingEmbedded(dimension: nat, digest: Digest, root: real -> real)
    requires dimension > 0 && IsRoot(root)
    ensures Embedding([], dimension, digest, root) == seq(dimension, _ => 0.0)
  {
  }

  // ---- Order of tokens ----

  lemma {:induction false} ComponentConcat(a: seq<string>, b: seq<string>, dimension: nat, digest: Digest, j: nat)
    requires dimension > 0
    ensures Component(a + b, dimension, digest, j)
            == Component(a, dimension, digest, j) + Component(b, dimension, digest, j)
  {
    if b == [] {
      assert a + b == a;
    } else {
      ComponentConcat(a, b[..|b| - 1], dimension, digest, j);
      assert (a + b)[..|a + b| - 1] == a + b[..|b| - 1];
    }
  }

  lemma ComponentOfOne(t: string, dimension: nat, digest: Digest, j: nat)
    requires dimension > 0
    ensures Component([t], dimension, digest, j) == Share(t, dimension, digest, j)
  {
  }

  lemma {:induction false} ComponentPermuted(a: seq<string>, b: seq<string>, dimension: nat, digest: Digest, j: nat)
    requires dimension > 0 && multiset(a) == multiset(b)
    ensures Component(a, dimension, digest, j) == Component(b, dimension, digest, j)
  {
    assert |multiset(a)| == |a| && |multiset(b)| == |b|;
    if a != [] {
      var n := |a| - 1;
      var t := a[n];
      assert t in multiset(b);
      var i :| 0 <= i < |b| && b[i] == t;
      var rest := b[..i] + b[i + 1..];
      assert b == b[..i] + [t] + b[i + 1..];
      assert a == a[..n] + [t];
      assert multiset(a[..n]) == multiset(a) - multiset{t};
      assert multiset(rest) == multiset(b) - multiset{t};
      ComponentPermuted(a[..n], rest, dimension, digest, j);
      ComponentConcat(b[..i] + [t], b[i + 1..], dimension, digest, j);
      ComponentConcat(b[..i], [t], dimension, digest, j);
      ComponentConcat(b[..i], b[i + 1..], dimension, digest, j);
      ComponentOfOne(t, dimension, digest, j);
    }
  }

  /** The same tokens in another order embed to the same vector. */
  lemma TokenOrderDoesNotMatter(a: seq<string>, b: seq<string>, dimension: nat, digest: Digest, root: real -> real)
    requires dimension > 0 && multiset(a) == multiset(b)
    ensures Embedding(a, dimension, digest, root) == Embedding(b, dimension, digest, root)
  {
    forall j: nat
      ensures Component(a, dimension, digest, j) == Component(b, dimension, digest, j)
    {
      ComponentPermuted(a, b, dimension, digest, j);
    }
    assert Sums(a, dimension, digest) == Sums(b, dimension, digest);
  }

  lemma {:induction false} ScaledNorm(values: seq<real>, norm: real, square: real)
    requires norm != 0.0 && square == norm * norm
    ensures SquaredNorm(Scaled(values, norm)) * square == SquaredNorm(values)
  {
    if values != [] {
      ScaledNorm(values[1..], norm, square);
      assert Scaled(values, norm)[1..] == Scaled(values[1..], norm);
      var z, rest := Quotient(values[0], norm), SquaredNorm(Scaled(values[1..], norm));
      assert z * norm == values[0];
      ProductOfSquares(z, norm);
      assert (z * z + rest) * square == (z * z) * square + rest * square;
    }
  }

  lemma {:induction false} ZeroNorm(values: seq<real>)
    requires forall i :: 0 <= i < |values| ==> values[i] == 0.0
    ensures SquaredNorm(values) == 0.0
  {
    if values != [] {
      ZeroNorm(values[1..]);
    }
  }

  lemma OnlyOne(n: real, square: real)
    requires n * square == square && square != 0.0
    ensures n == 1.0
  {
  }

  /** An embedding has length one, or it is zero because the tokens cancel out. */
  lemma EmbeddingIsUnitOrZero(tokens: seq<string>, dimension: nat, digest: Digest, root: real -> real)
    requires dimension > 0 && IsRoot(root)
    ensures var sums := SquaredNorm(Sums(tokens, dimension, digest));
            SquaredNorm(Embedding(tokens, dimension, digest, root)) == if sums == 0.0 then 0.0 else 1.0
  {
    var sums := Sums(tokens, dimension, digest);
    var norm := root(SquaredNorm(sums));
    if norm == 0.0 {
      ZeroNorm(Scaled(sums, norm));
    } else {
      var square := SquaredNorm(sums);
      SquareIsPositive(norm, square);
      ScaledNorm(sums, norm, square);
      OnlyOne(SquaredNorm(Scaled(sums, norm)), square);
    }
  }
}
