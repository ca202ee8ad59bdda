/** The functional combinators the repositories are built from: Either
    (fail-fast), Validated with a non-empty error list (accumulating), list
    traversal for both, list flattening and first-match search. */
module Arrow {

  datatype Option<+T> = None | Some(value: T)

  datatype Either<+L, +R> = Left(left: L) | Right(right: R)

  /** Validated whose error side is a NonEmptyList (`ValidatedNel`). */
  datatype Validated<+E, +A> = Invalid(errors: seq<E>) | Valid(value: A)

  /** The exceptions that `Either.catch` turns into values: those of the JSON
      decoder, of `!!`, of `JsonElement.jsonObject` and of `List.first()`. */
  datatype Throwable =
    | NullPointerException
    | IllegalArgumentException
    | SerializationException(message: string)
    | NoSuchElementException(message: string)

  /** An Invalid value carries a non-empty list of errors. */
  predicate IsNel<E, A>(v: Validated<E, A>) {
    v.Invalid? ==> |v.errors| > 0
  }

  /** The errors a Validated value contributes: none when it is Valid. */
  function ErrorsOf<E, A>(v: Validated<E, A>): seq<E> {
    if v.Invalid? then v.errors else []
  }

  /** `toValidatedNel`: a single error becomes a one-element error list. */
  function ToValidatedNel<E, A>(e: Either<E, A>): (v: Validated<E, A>)
    ensures IsNel(v)
    ensures v.Valid? <==> e.Right?
    ensures e.Right? ==> v.value == e.right
    ensures e.Left? ==> v.errors == [e.left]
  {
    match e
    case Left(err) => Invalid([err])
    case Right(a) => Valid(a)
  }

  /** The product of the Validated applicative over the NonEmptyList
      semigroup, on which `mapN` is built: both sides are always examined, and
      when both are Invalid the left errors come before the right ones. */
  function Zip<E, A, B>(a: Validated<E, A>, b: Validated<E, B>): (r: Validated<E, (A, B)>)
    ensures r.Valid? <==> a.Valid? && b.Valid?
    ensures r.Valid? ==> r.value == (a.value, b.value)
    ensures r.Invalid? ==> r.errors == ErrorsOf(a) + ErrorsOf(b)
    ensures IsNel(a) && IsNel(b) ==> IsNel(r)
  {
    match (a, b)
    case (Valid(x), Valid(y)) => Valid((x, y))
    case (Invalid(ea), Valid(_)) => Invalid(ea)
    case (Valid(_), Invalid(eb)) => Invalid(eb)
    case (Invalid(ea), Invalid(eb)) => Invalid(ea + eb)
  }

  /** Concatenation of a list of lists, in order (`flatten`, `flatMap`). */
  function Flatten<T>(ss: seq<seq<T>>): seq<T> {
    if |ss| == 0 then [] else ss[0] + Flatten(ss[1..])
  }

  /** The error lists of the Invalid elements only, in list order. */
  function InvalidErrors<E, A>(vs: seq<Validated<E, A>>): (r: seq<seq<E>>)
    ensures r == [] <==> forall i :: 0 <= i < |vs| ==> vs[i].Valid?
  {
    if |vs| == 0 then []
    else if vs[0].Invalid? then [vs[0].errors] + InvalidErrors(vs[1..])
    else InvalidErrors(vs[1..])
  }

  /** `List<Validated>.sequence(applicative)` with the NonEmptyList semigroup:
      Valid with every value, in order, when all elements are Valid;
      otherwise Invalid with the errors of the Invalid elements only,
      concatenated in list order. */
  function SequenceValidated<E, A>(vs: seq<Validated<E, A>>): (r: Validated<E, seq<A>>)
    ensures r.Valid? <==> forall i :: 0 <= i < |vs| ==> vs[i].Valid?
    ensures r.Valid? ==> |r.value| == |vs| && forall i :: 0 <= i < |vs| ==> vs[i] == Valid(r.value[i])
    ensures r.Invalid? ==> r.errors == Flatten(InvalidErrors(vs))
    ensures (forall i :: 0 <= i < |vs| ==> IsNel(vs[i])) ==> IsNel(r)
  {
    if |vs| == 0 then Valid([])
    else
      assert Flatten(InvalidErrors(vs)) == ErrorsOf(vs[0]) + Flatten(InvalidErrors(vs[1..])) by {
        if vs[0].Invalid? {
          assert ([vs[0].errors] + InvalidErrors(vs[1..]))[1..] == InvalidErrors(vs[1..]);
        }
      }
      match Zip(vs[0], SequenceValidated(vs[1..]))
      case Valid((x, xs)) => Valid([x] + xs)
      case Invalid(es) => Invalid(es)
  }

  /** `List<Either>.sequence(Either.applicative())`: Right with every value,
      in order, when all elements are Right; otherwise the Left of the first
      Left element in list order. */
  function Sequence<L, R>(xs: seq<Either<L, R>>): (r: Either<L, seq<R>>)
    ensures r.Right? <==> forall i :: 0 <= i < |xs| ==> xs[i].Right?
    ensures r.Right? ==> |r.right| == |xs| && forall i :: 0 <= i < |xs| ==> xs[i] == Right(r.right[i])
    ensures r.Left? ==>
      exists k :: 0 <= k < |xs| && xs[k] == Left(r.left) && forall j :: 0 <= j < k ==> xs[j].Right?
  {
    if |xs| == 0 then Right([])
    else
      match xs[0]
      case Left(e) => Left(e)
      case Right(x) =>
        match Sequence(xs[1..])
        case Left(e) => Left(e)
        case Right(rest) => Right([x] + rest)
  }

  /** `firstOrNull`: the first element, in list order, that satisfies `p`. */
  function FirstOrNull<T>(xs: seq<T>, p: T -> bool): (r: Option<T>)
    ensures r.None? <==> forall i :: 0 <= i < |xs| ==> !p(xs[i])
    ensures r.Some? ==>
      exists k :: 0 <= k < |xs| && xs[k] == r.value && p(xs[k]) && forall j :: 0 <= j < k ==> !p(xs[j])
  {
    if |xs| == 0 then None
    else if p(xs[0]) then Some(xs[0])
    else FirstOrNull(xs[1..], p)
  }

  /** Flattening distributes over concatenation. */
  lemma {:induction false} FlattenAppend<T>(a: seq<seq<T>>, b: seq<seq<T>>)
    ensures Flatten(a + b) == Flatten(a) + Flatten(b)
  {
    if |a| == 0 {
      assert a + b == b;
    } else {
      assert (a + b)[1..] == a[1..] + b;
      FlattenAppend(a[1..], b);
    }
  }

  /** Searching a concatenation: a match in the first part wins; only when
      there is none is the second part searched. */
  lemma {:induction false} FirstOrNullAppend<T>(a: seq<T>, b: seq<T>, p: T -> bool)
    ensures FirstOrNull(a + b, p) == if FirstOrNull(a, p).Some? then FirstOrNull(a, p) else FirstOrNull(b, p)
  {
    if |a| == 0 {
      assert a + b == b;
    } else {
      assert (a + b)[1..] == a[1..] + b;
      FirstOrNullAppend(a[1..], b, p);
    }
  }

  /** An element is in the flattening exactly when it is in one of the lists. */
  lemma {:induction false} FlattenMembers<T>(ss: seq<seq<T>>, x: T)
    ensures x in Flatten(ss) <==> exists i :: 0 <= i < |ss| && x in ss[i]
  {
    if |ss| > 0 {
      FlattenMembers(ss[1..], x);
      assert forall i :: 1 <= i < |ss| ==> ss[i] == ss[1..][i - 1];
    }
  }
}
