/** Presto's QualifiedName: a non-empty list of name parts, the last of which is
    the suffix and the others, when there are any, the prefix. */
module QualifiedNames {
  import opened Wrappers

  /** The parts joined with '.' (Guava's Joiner.on('.')). */
  function Join(parts: seq<string>): string {
    if |parts| == 0 then ""
    else if |parts| == 1 then parts[0]
    else parts[0] + "." + Join(parts[1..])
  }

  /** A name is kept as its qualifying parts and its suffix, so that it is never empty. */
  datatype QualifiedName = QualifiedName(qualifier: seq<string>, suffix: string) {

    function Parts(): seq<string> {
      qualifier + [suffix]
    }

    /** getPrefix(): every part but the last, absent for a one-part name. */
    function Prefix(): (p: Option<QualifiedName>)
      ensures p.None? <==> qualifier == []
      ensures p.Some? ==> p.value.Parts() == qualifier
    {
      if qualifier == [] then None
      else Some(QualifiedName(qualifier[..|qualifier| - 1], qualifier[|qualifier| - 1]))
    }

    /** toString(): the prefix's text, a dot and the suffix, or the suffix alone. */
    function ToString(): (t: string)
      ensures qualifier == [] ==> t == suffix
      ensures qualifier != [] ==> t == Join(qualifier) + "." + suffix
    {
      JoinSnoc(qualifier, suffix);
      Join(Parts())
    }
  }

  /** `new QualifiedName(name)`: the one-part name. */
  function Of(name: string): (q: QualifiedName)
    ensures q.Prefix().None? && q.suffix == name
  {
    QualifiedName([], name)
  }

  /** Joining one more part adds a dot and that part. */
  lemma {:induction false} JoinSnoc(parts: seq<string>, last: string)
    ensures parts == [] ==> Join(parts + [last]) == last
    ensures parts != [] ==> Join(parts + [last]) == Join(parts) + "." + last
  {
    if |parts| == 1 {
      assert (parts + [last])[1..] == [last];
    } else if |parts| > 1 {
      assert (parts + [last])[1..] == parts[1..] + [last];
      JoinSnoc(parts[1..], last);
    }
  }

  /** A name of two or more parts always prints with a dot in it. */
  lemma JoinOfSeveralHasDot(parts: seq<string>)
    requires |parts| >= 2
    ensures '.' in Join(parts)
  {
  }

  lemma JoinOfTwo(a: string, b: string)
    ensures Join([a, b]) == a + "." + b
  {
  }
}
