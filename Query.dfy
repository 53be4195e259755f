/** `URLSearchParams` as the list pages build it: entries appended one by
    one, each name at most once. */
module Query {
  import opened Common

  /** One `URLSearchParams` entry. */
  datatype Param = Param(name: string, value: string)

  /** The value of the parameter called `name`, scanning from the end. */
  function ValueOf(ps: seq<Param>, name: string): Option<string>
  {
    if ps == [] then None
    else if ps[|ps| - 1].name == name then Some(ps[|ps| - 1].value)
    else ValueOf(ps[..|ps| - 1], name)
  }

  predicate DistinctNames(ps: seq<Param>)
  {
    forall i, j :: 0 <= i < j < |ps| ==> ps[i].name != ps[j].name
  }

  /** `if (cond) params.append(...)`: one entry more exactly when `cond`. */
  method AppendIf(ps: seq<Param>, cond: bool, p: Param) returns (r: seq<Param>)
    requires DistinctNames(ps) && ValueOf(ps, p.name).None?
    ensures DistinctNames(r) && |r| == |ps| + Bit(cond)
    ensures ValueOf(r, p.name) == if cond then Some(p.value) else None
    ensures forall n :: n != p.name ==> ValueOf(r, n) == ValueOf(ps, n)
  {
    r := ps;
    if cond {
      r := Append(ps, p);
    }
  }

  /** `params.append`: the new entry is found under its name and every other
      name keeps its value. */
  method Append(ps: seq<Param>, p: Param) returns (r: seq<Param>)
    requires DistinctNames(ps) && ValueOf(ps, p.name).None?
    ensures DistinctNames(r) && |r| == |ps| + 1 && r[|ps|] == p
    ensures ValueOf(r, p.name) == Some(p.value)
    ensures forall n :: n != p.name ==> ValueOf(r, n) == ValueOf(ps, n)
  {
    r := ps + [p];
    assert r[..|ps|] == ps;
    forall i | 0 <= i < |ps| ensures ps[i].name != p.name {
      NamedEntryHasValue(ps, i);
    }
  }

  /** A name that occurs has a value. */
  lemma {:induction false} NamedEntryHasValue(ps: seq<Param>, i: nat)
    requires i < |ps|
    ensures ValueOf(ps, ps[i].name).Some?
    decreases |ps|
  {
    if ps[|ps| - 1].name != ps[i].name {
      assert i < |ps| - 1;
      assert ps[..|ps| - 1][i] == ps[i];
      NamedEntryHasValue(ps[..|ps| - 1], i);
    }
  }
}
