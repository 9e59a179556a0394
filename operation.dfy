/** The kind of change a record describes, with its priority and the
    persistence-layer verbs that name it. */
module Operations {
  import opened JavaLang
  import opened JavaText

  datatype Priority = LOW | NORMAL | HIGH

  function Level(p: Priority): int {
    match p
    case LOW => 1
    case NORMAL => 2
    case HIGH => 3
  }

  /** `Priority.isHigherThan`: a strictly greater level. */
  predicate IsHigherThan(p: Priority, other: Priority) { Level(p) > Level(other) }

  /** `isHigherThan` is a strict total order with LOW below NORMAL below HIGH. */
  lemma IsHigherThanStrictOrder(p: Priority, q: Priority, r: Priority)
    ensures !IsHigherThan(p, p)
    ensures IsHigherThan(p, q) ==> !IsHigherThan(q, p)
    ensures IsHigherThan(p, q) && IsHigherThan(q, r) ==> IsHigherThan(p, r)
    ensures p != q ==> IsHigherThan(p, q) || IsHigherThan(q, p)
    ensures IsHigherThan(NORMAL, LOW) && IsHigherThan(HIGH, NORMAL)
  {
  }

  datatype Operation = CREATE | UPDATE | DELETE

  /** The enum constants in declaration order, as `values()` returns them. */
  const Values: seq<Operation> := [CREATE, UPDATE, DELETE]

  /** `name()` */
  function Name(op: Operation): string {
    match op
    case CREATE => "CREATE"
    case UPDATE => "UPDATE"
    case DELETE => "DELETE"
  }

  function PriorityOf(op: Operation): Priority {
    match op
    case CREATE => NORMAL
    case UPDATE => LOW
    case DELETE => HIGH
  }

  function Aliases(op: Operation): set<string> {
    match op
    case CREATE => {"INSERT", "SAVE"}
    case UPDATE => {"UPDATE", "MERGE"}
    case DELETE => {"DELETE", "REMOVE"}
  }

  predicate RequiresOldEntity(op: Operation) { op == UPDATE || op == DELETE }

  predicate RequiresNewEntity(op: Operation) { op == CREATE || op == UPDATE }

  predicate IsHighPriority(op: Operation) { PriorityOf(op) == HIGH }

  /** `matchesAlias`: the upper-cased argument is one of the aliases. */
  predicate MatchesAlias(op: Operation, alias: string) { ToUpper(alias) in Aliases(op) }

  /** `fromAlias`: the first constant, in declaration order, that matches. */
  function FromAlias(alias: string): Result<Operation> {
    FindAlias(alias, 0)
  }

  function FindAlias(alias: string, i: nat): (r: Result<Operation>)
    requires i <= |Values|
    ensures r.Ok? ==> MatchesAlias(r.value, alias) && exists j :: i <= j < |Values| && Values[j] == r.value
    ensures r.Ok? ==> forall j :: i <= j < |Values| && Values[j] != r.value ==> !MatchesAlias(Values[j], alias) || j > IndexOfOp(r.value)
    ensures r.Err? ==> forall j :: i <= j < |Values| ==> !MatchesAlias(Values[j], alias)
    ensures r.Err? ==> r.error == IllegalArgumentException("Unknown operation alias: " + alias)
    decreases |Values| - i
  {
    if i == |Values| then Err(IllegalArgumentException("Unknown operation alias: " + alias))
    else if MatchesAlias(Values[i], alias) then Ok(Values[i])
    else FindAlias(alias, i + 1)
  }

  function IndexOfOp(op: Operation): nat {
    match op
    case CREATE => 0
    case UPDATE => 1
    case DELETE => 2
  }

  /** Only UPDATE needs both entity states; CREATE needs the new one only and
      DELETE the old one only. */
  lemma EntityRequirements(op: Operation)
    ensures RequiresOldEntity(op) <==> op in {UPDATE, DELETE}
    ensures RequiresNewEntity(op) <==> op in {CREATE, UPDATE}
    ensures RequiresOldEntity(op) && RequiresNewEntity(op) <==> op == UPDATE
    ensures RequiresOldEntity(op) || RequiresNewEntity(op)
  {
  }

  /** Only DELETE is high priority. */
  lemma HighPriorityIsDelete(op: Operation)
    ensures IsHighPriority(op) <==> op == DELETE
  {
  }

  /** No alias belongs to two operations. */
  lemma AliasesDisjoint(a: Operation, b: Operation)
    requires a != b
    ensures Aliases(a) !! Aliases(b)
  {
  }

  /** Matching ignores the letter case of the argument. */
  lemma MatchesAliasIgnoresCase(op: Operation, alias: string)
    ensures MatchesAlias(op, alias) <==> MatchesAlias(op, ToUpper(alias))
    ensures MatchesAlias(op, alias) <==> MatchesAlias(op, ToLower(alias))
  {
    UpperForgetsCase(alias);
  }

  /** `fromAlias` maps INSERT/SAVE to CREATE, UPDATE/MERGE to UPDATE and
      DELETE/REMOVE to DELETE, in any letter case, and rejects everything
      else; because the alias sets are disjoint, the order of the search
      does not matter. */
  lemma FromAliasIff(alias: string, op: Operation)
    ensures FromAlias(alias) == Ok(op) <==> ToUpper(alias) in Aliases(op)
    ensures FromAlias(alias).Err? <==> forall o: Operation :: ToUpper(alias) !in Aliases(o)
  {
    var r := FromAlias(alias);
    if ToUpper(alias) in Aliases(op) {
      assert Values[IndexOfOp(op)] == op;
      if r.Ok? && r.value != op {
        AliasesDisjoint(r.value, op);
      }
    }
    if r.Err? {
      forall o: Operation ensures ToUpper(alias) !in Aliases(o) {
        assert Values[IndexOfOp(o)] == o;
      }
    }
  }

  lemma FromAliasExamples()
    ensures FromAlias("insert") == Ok(CREATE) && FromAlias("Save") == Ok(CREATE)
    ensures FromAlias("merge") == Ok(UPDATE) && FromAlias("REMOVE") == Ok(DELETE)
    ensures FromAlias("upsert").Err?
  {
    assert ToUpper("insert") == "INSERT";
    assert ToUpper("Save") == "SAVE";
    assert ToUpper("merge") == "MERGE";
    assert ToUpper("REMOVE") == "REMOVE";
    FromAliasIff("insert", CREATE);
    FromAliasIff("Save", CREATE);
    FromAliasIff("merge", UPDATE);
    FromAliasIff("REMOVE", DELETE);
    FromAliasIff("upsert", CREATE);
    assert ToUpper("upsert") == "UPSERT";
  }
}
