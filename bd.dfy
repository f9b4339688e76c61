/**
 * Model of CasaCorretorAPI/Data/BD.cs: the in-memory registry of contracted
 * proposers, a list shared by both controllers.
 */
module Data {
  import opened Wrappers
  import opened ProponenteModel

  /** No CPF occurs twice. */
  predicate Distinct(cpfs: seq<Option<string>>) {
    forall i, j :: 0 <= i < j < |cpfs| ==> cpfs[i] != cpfs[j]
  }

  /** The CPFs stored in a list of proposers, in list order. */
  ghost function CpfsOf(ps: seq<Proponente>): (cpfs: seq<Option<string>>)
    reads ps
    ensures |cpfs| == |ps| && forall i :: 0 <= i < |ps| ==> cpfs[i] == ps[i].cpf
  {
    if ps == [] then [] else CpfsOf(ps[..|ps| - 1]) + [ps[|ps| - 1].cpf]
  }

  class BD {
    /** BD.Proponentes: the contracted proposers in the order they were added. */
    var proponentes: seq<Proponente>

    constructor()
      ensures proponentes == []
    {
      proponentes := [];
    }

    ghost function Cpfs(): seq<Option<string>>
      reads this, proponentes
    {
      CpfsOf(proponentes)
    }

    /** The registry invariant: at most one proposer per CPF. */
    ghost predicate Valid()
      reads this, proponentes
    {
      Distinct(Cpfs())
    }
  }
}
