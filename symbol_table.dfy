/**
 * SymbolTable.py: a dictionary from variable names to values, with declare,
 * lookup, is_declared and assign.
 *
 * The functions over `Table` say what each operation does to a dictionary value;
 * the class `SymbolTable` updates its dictionary field in place and is proved to
 * agree with them.
 */
module Symtab {
  import opened Wrappers
  import opened Values

  type Table = map<string, Value>

  /** The three exceptions the table raises, each naming the variable. */
  datatype SymbolError =
    | AlreadyDeclared(name: string)   // 'Var x is already declared.'
    | NotDeclared(name: string)       // 'Variable: x not declared'
    | AssignUndeclared(name: string)  // 'Var x is not declared.'

  /** `dict.get(name, default)`. */
  function Get(tab: Table, name: string, default: Value): Value {
    if name in tab then tab[name] else default
  }

  /** `is_declared`: a key whose stored value is not None. */
  predicate IsDeclaredIn(tab: Table, name: string): (b: bool)
    ensures b <==> Get(tab, name, NoneVal) != NoneVal
  {
    name in tab && tab[name] != NoneVal
  }

  /** `declare` on a dictionary value. */
  function DeclareIn(tab: Table, name: string): (r: Result<Table, SymbolError>)
    ensures r.Err? <==> IsDeclaredIn(tab, name)
    ensures r.Err? ==> r.error == AlreadyDeclared(name)
    ensures r.Ok? ==> r.value.Keys == tab.Keys + {name} && r.value[name] == IntVal(0)
    ensures r.Ok? ==> forall n :: n in tab && n != name ==> r.value[n] == tab[n]
  {
    if !IsDeclaredIn(tab, name) then Ok(tab[name := IntVal(0)])
    else Err(AlreadyDeclared(name))
  }

  /** `lookup` on a dictionary value. */
  function LookupIn(tab: Table, name: string): (r: Result<Value, SymbolError>)
    ensures r.Err? <==> !IsDeclaredIn(tab, name)
    ensures r.Err? ==> r.error == NotDeclared(name)
    ensures r.Ok? ==> name in tab && r.value == tab[name] && r.value != NoneVal
  {
    if !IsDeclaredIn(tab, name) then Err(NotDeclared(name)) else Ok(tab[name])
  }

  /** `assign` on a dictionary value. */
  function AssignIn(tab: Table, name: string, v: Value): (r: Result<Table, SymbolError>)
    ensures r.Err? <==> !IsDeclaredIn(tab, name)
    ensures r.Err? ==> r.error == AssignUndeclared(name)
    ensures r.Ok? ==> r.value.Keys == tab.Keys && r.value[name] == v
    ensures r.Ok? ==> forall n :: n in tab && n != name ==> r.value[n] == tab[n]
  {
    if IsDeclaredIn(tab, name) then Ok(tab[name := v]) else Err(AssignUndeclared(name))
  }

  /** A fresh declaration reads back as 0. */
  lemma DeclareThenLookup(tab: Table, name: string)
    requires !IsDeclaredIn(tab, name)
    ensures DeclareIn(tab, name).Ok? && LookupIn(DeclareIn(tab, name).value, name) == Ok(IntVal(0))
  {
  }

  /**
   * An assignment reads back, except that storing None makes the name undeclared
   * again (`is_declared` tests the stored value against None).
   */
  lemma AssignThenLookup(tab: Table, name: string, v: Value)
    requires IsDeclaredIn(tab, name)
    ensures AssignIn(tab, name, v).Ok?
    ensures v != NoneVal ==> LookupIn(AssignIn(tab, name, v).value, name) == Ok(v)
    ensures v == NoneVal ==> LookupIn(AssignIn(tab, name, v).value, name) == Err(NotDeclared(name))
    ensures v == NoneVal ==> DeclareIn(AssignIn(tab, name, v).value, name).Ok?
  {
  }

  /** Declaring or assigning one name does not change what any other name looks up to. */
  lemma OtherNamesUnaffected(tab: Table, name: string, other: string, v: Value)
    requires other != name
    ensures DeclareIn(tab, name).Ok? ==> LookupIn(DeclareIn(tab, name).value, other) == LookupIn(tab, other)
    ensures AssignIn(tab, name, v).Ok? ==> LookupIn(AssignIn(tab, name, v).value, other) == LookupIn(tab, other)
  {
  }

  class SymbolTable {
    var tab: Table

    /** `__init__`: an empty dictionary. */
    constructor ()
      ensures tab == map[]
    {
      tab := map[];
    }

    /** `is_declared`: the name is a key whose stored value is not None. */
    function IsDeclared(name: string): (b: bool)
      reads this
      ensures b <==> name in tab && tab[name] != NoneVal
    {
      IsDeclaredIn(tab, name)
    }

    /** `declare`: store 0 under a name that is not declared, else raise and change nothing. */
    method Declare(name: string) returns (s: Status<SymbolError>)
      modifies this
      ensures s.Failed? <==> old(IsDeclared(name))
      ensures s.Failed? ==> s.error == AlreadyDeclared(name) && tab == old(tab)
      ensures s.Done? ==> tab == old(tab)[name := IntVal(0)]
      ensures DeclareIn(old(tab), name) == if s.Done? then Ok(tab) else Err(s.error)
    {
      if !IsDeclared(name) {
        tab := tab[name := IntVal(0)];
        s := Done;
      } else {
        s := Failed(AlreadyDeclared(name));
      }
    }

    /** `lookup`: the stored value of a declared name, else raise. */
    method Lookup(name: string) returns (r: Result<Value, SymbolError>)
      ensures r.Ok? <==> IsDeclared(name)
      ensures r.Ok? ==> r.value == tab[name]
      ensures r.Err? ==> r.error == NotDeclared(name)
      ensures r == LookupIn(tab, name)
    {
      if !IsDeclared(name) {
        return Err(NotDeclared(name));
      }
      return Ok(tab[name]);
    }

    /** `assign`: replace the value of a declared name, else raise and change nothing. */
    method Assign(name: string, value: Value) returns (s: Status<SymbolError>)
      modifies this
      ensures s.Done? <==> old(IsDeclared(name))
      ensures s.Failed? ==> s.error == AssignUndeclared(name) && tab == old(tab)
      ensures s.Done? ==> tab == old(tab)[name := value]
      ensures AssignIn(old(tab), name, value) == if s.Done? then Ok(tab) else Err(s.error)
    {
      if IsDeclared(name) {
        tab := tab[name := value];
        s := Done;
      } else {
        s := Failed(AssignUndeclared(name));
      }
    }
  }
}
