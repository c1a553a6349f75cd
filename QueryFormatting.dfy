/** Re-serialising a parsed statement with its table names rewritten.

    The formatter walks the statement tree and writes its text into a
    StringBuilder, passing every table reference through a mapper that may
    throw. Its output is modelled as the sequence of pieces it emits in order:
    literal text, and table references to be mapped. */
module QueryFormatting {
  import opened Wrappers
  import opened QualifiedNames
  import opened Exceptions

  datatype Fragment = Text(text: string) | Table(name: QualifiedName)

  /** A parsed statement: a query with its own LIMIT text, or any other kind. */
  datatype Statement =
    | Query(body: seq<Fragment>, limit: Option<string>)
    | OtherStatement(body: seq<Fragment>)

  /** A table-name mapper: the path to print for a reference, or the exception it throws. */
  type Mapper = QualifiedName -> Result<string, Exception>

  /** The first exception of the two, or both texts one after the other. */
  function Concat(first: Result<string, Exception>, second: Result<string, Exception>): Result<string, Exception> {
    match first
    case Failure(e) => Failure(e)
    case Success(s) =>
      match second
      case Failure(e) => Failure(e)
      case Success(t) => Success(s + t)
  }

  function Piece(f: Fragment, mapper: Mapper): Result<string, Exception> {
    match f
    case Text(t) => Success(t)
    case Table(n) => mapper(n)
  }

  /** The formatter's output for `body`, or the first exception the mapper throws. */
  function Render(body: seq<Fragment>, mapper: Mapper): (r: Result<string, Exception>)
    ensures (forall i :: 0 <= i < |body| ==> body[i].Text?) ==> r.Success?
  {
    if body == [] then Success("") else Concat(Piece(body[0], mapper), Render(body[1..], mapper))
  }

  lemma ConcatAssociative(a: Result<string, Exception>, b: Result<string, Exception>, c: Result<string, Exception>)
    ensures Concat(Concat(a, b), c) == Concat(a, Concat(b, c))
  {
    if a.Success? && b.Success? && c.Success? {
      assert (a.value + b.value) + c.value == a.value + (b.value + c.value);
    }
  }

  /** Formatting two pieces of a statement one after the other formats the whole. */
  lemma {:induction false} RenderConcat(a: seq<Fragment>, b: seq<Fragment>, mapper: Mapper)
    ensures Render(a + b, mapper) == Concat(Render(a, mapper), Render(b, mapper))
  {
    if a == [] {
      assert a + b == b;
      if Render(b, mapper).Success? {
        assert "" + Render(b, mapper).value == Render(b, mapper).value;
      }
    } else {
      assert (a + b)[0] == a[0];
      assert (a + b)[1..] == a[1..] + b;
      RenderConcat(a[1..], b, mapper);
      ConcatAssociative(Piece(a[0], mapper), Render(a[1..], mapper), Render(b, mapper));
    }
  }

  /** Formatting succeeds exactly when the mapper accepts every table the statement names. */
  lemma {:induction false} RenderSucceedsIff(body: seq<Fragment>, mapper: Mapper)
    ensures Render(body, mapper).Success?
        <==> forall i :: 0 <= i < |body| && body[i].Table? ==> mapper(body[i].name).Success?
  {
    if body != [] {
      RenderSucceedsIff(body[1..], mapper);
      assert forall i :: 1 <= i < |body| ==> body[i] == body[1..][i - 1];
    }
  }

  /** A failed formatting reports the exception the mapper throws for the first table
      it rejects: every table before that one is accepted. */
  lemma {:induction false} RenderFailureNamesATable(body: seq<Fragment>, mapper: Mapper)
    requires Render(body, mapper).Failure?
    ensures exists i ::
              && 0 <= i < |body| && body[i].Table? && mapper(body[i].name) == Failure(Render(body, mapper).error)
              && forall j :: 0 <= j < i && body[j].Table? ==> mapper(body[j].name).Success?
  {
    if Piece(body[0], mapper).Success? {
      RenderFailureNamesATable(body[1..], mapper);
      var i :|
        && 0 <= i < |body[1..]| && body[1..][i].Table? && mapper(body[1..][i].name) == Failure(Render(body[1..], mapper).error)
        && forall j :: 0 <= j < i && body[1..][j].Table? ==> mapper(body[1..][j].name).Success?;
      assert body[i + 1] == body[1..][i];
      forall j | 0 <= j < i + 1 && body[j].Table?
        ensures mapper(body[j].name).Success?
      {
        if j > 0 {
          assert body[j] == body[1..][j - 1];
        }
      }
    } else {
      assert body[0].Table?;
    }
  }

  /** Java's StringBuilder: text appended in place. */
  class StringBuilder {
    var contents: string

    constructor ()
      ensures contents == ""
    {
      contents := "";
    }

    method Append(s: string)
      modifies this
      ensures contents == old(contents) + s
    {
      contents := contents + s;
    }

    function ToString(): string
      reads this
    {
      contents
    }
  }

  /** The formatter's pass over a statement: it appends each piece to `builder`, and
      stops at the first table the mapper rejects, returning that exception. After a
      rejection the builder keeps the text written before it (the old text is only
      extended); the callers discard the builder in that case. */
  method Format(builder: StringBuilder, mapper: Mapper, body: seq<Fragment>) returns (thrown: Option<Exception>)
    modifies builder
    ensures old(builder.contents) <= builder.contents
    ensures Render(body, mapper).Failure? ==> thrown == Some(Render(body, mapper).error)
    ensures Render(body, mapper).Success? ==>
      thrown == None && builder.contents == old(builder.contents) + Render(body, mapper).value
  {
    var i := 0;
    while i < |body|
      invariant 0 <= i <= |body|
      invariant Render(body[..i], mapper).Success?
      invariant builder.contents == old(builder.contents) + Render(body[..i], mapper).value
    {
      assert body[..i + 1] == body[..i] + [body[i]];
      RenderConcat(body[..i], [body[i]], mapper);
      var text: string;
      match body[i] {
        case Text(t) =>
          text := t;
        case Table(n) =>
          var mapped := mapper(n);
          if mapped.Failure? {
            assert body == body[..i + 1] + body[i + 1..];
            RenderConcat(body[..i + 1], body[i + 1..], mapper);
            return Some(mapped.error);
          }
          text := mapped.value;
      }
      builder.Append(text);
      i := i + 1;
    }
    assert body[..i] == body;
    thrown := None;
  }
}
