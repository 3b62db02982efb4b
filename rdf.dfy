/**
 * The RDF vocabulary of the reader and the writer: terms, statements, the
 * statement collection the reader queries, and the statement sink the writer
 * fills.
 */
module Rdf {

  import opened Wrappers

  /**
   * An RDF term. `FreshBNode` is a blank node whose identifier the writer
   * generated (`Values.bnode()`); the serial number stands for that identifier.
   * A literal carries its language tag, if any, so `"chat"@en` and `"chat"@fr`
   * are two terms.
   */
  datatype Term =
    | Iri(iri: string)
    | BNode(id: string)
    | FreshBNode(serial: nat)
    | Literal(lexical: string, datatypeIri: string, language: Option<string>)

  datatype Statement = Statement(subj: Term, pred: Term, obj: Term)

  /** `RDF.TYPE`. */
  const RdfType := Iri("http://www.w3.org/1999/02/22-rdf-syntax-ns#type")

  /** `model.contains(subject, null, null)`. */
  predicate HasSubject(model: seq<Statement>, s: Term)
  {
    exists i :: 0 <= i < |model| && model[i].subj == s
  }

  /**
   * `Models.getProperties(model, s, p)`: the objects of the statements with
   * subject `s` and predicate `p`, each once, in the order of their first
   * statement.
   */
  function Objects(model: seq<Statement>, s: Term, p: Term): (os: seq<Term>)
    ensures Distinct(os)
    ensures forall o :: o in os <==> Statement(s, p, o) in model
    decreases |model|
  {
    if |model| == 0 then []
    else
      var earlier := Objects(model[..|model| - 1], s, p);
      var last := model[|model| - 1];
      assert model == model[..|model| - 1] + [last];
      if last.subj == s && last.pred == p && last.obj !in earlier then earlier + [last.obj]
      else earlier
  }

  /** A subject that has an object for some predicate is a subject of the model. */
  lemma ObjectsHaveSubject(model: seq<Statement>, s: Term, p: Term)
    requires |Objects(model, s, p)| > 0
    ensures HasSubject(model, s)
  {
    var o := Objects(model, s, p)[0];
    var i :| 0 <= i < |model| && model[i] == Statement(s, p, o);
  }

  /**
   * The writer's `LinkedHashModel` and its blank-node allocation: the
   * statements in insertion order, each once, and the serial of the next
   * generated blank node.
   */
  datatype Output = Output(statements: seq<Statement>, nextBlank: nat)

  /** `model.add(st)`: a statement already present is not added again. */
  function Emit(out: Output, st: Statement): (r: Output)
    ensures st in r.statements && out.statements <= r.statements && r.nextBlank == out.nextBlank
    ensures forall x :: x in r.statements <==> x in out.statements || x == st
    ensures Distinct(out.statements) ==> Distinct(r.statements)
  {
    if st in out.statements then out else out.(statements := out.statements + [st])
  }

  /** The sink the writer adds statements to. */
  class Graph {
    var statements: seq<Statement>
    var nextBlank: nat

    function State(): Output
      reads this
    {
      Output(statements, nextBlank)
    }

    /** `new LinkedHashModel()`. */
    constructor ()
      ensures State() == Output([], 0)
    {
      statements, nextBlank := [], 0;
    }

    /** `model.add(subject, predicate, object)`. */
    method Add(st: Statement)
      modifies this
      ensures State() == Emit(old(State()), st)
    {
      if st !in statements {
        statements := statements + [st];
      }
    }

    /** `Values.bnode()`: a blank node no earlier call returned. */
    method FreshBlank() returns (t: Term)
      modifies this
      ensures t == FreshBNode(old(nextBlank)) && State() == old(State()).(nextBlank := old(nextBlank) + 1)
    {
      t := FreshBNode(nextBlank);
      nextBlank := nextBlank + 1;
    }
  }
}
