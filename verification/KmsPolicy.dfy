/** The key policy's attestation allow-list: where it is kept, how it is read and rewritten. */
module KmsPolicy {
  import opened Js

  const ALLOW_SID := "AllowDecryptOnlyFromAttestedEnclave"
  const CONDITION_KEY := "kms:RecipientAttestation:PCR0"
  const ADMIN_SID := "ProvisionerAdmin"
  const DENY_SID := "DenyDecryptWithoutAttestation"

  /** A condition's value: one string, or a list of them. */
  datatype Listed = One(value: string) | Many(values: seq<string>)

  /** One operator of a condition block with its keys; operators keep their order in the document. */
  datatype Clause = Clause(operator: string, keys: map<string, Listed>)

  /** `rest` stands for every part of the document not named here. */
  datatype Statement = Statement(sid: Option<string>, condition: seq<Clause>, rest: string)

  datatype Policy = Policy(statements: seq<Statement>, rest: string)

  function LowerAll(list: seq<string>): (lows: seq<string>)
    ensures |lows| == |list|
  {
    if list == [] then [] else [Lower(list[0])] + LowerAll(list[1..])
  }

  /** The entries are already in lower case, as every measurement given on the command line is. */
  ghost predicate Lowered(list: seq<string>) {
    LowerAll(list) == list
  }

  lemma {:induction false} LoweredCons(first: string, rest: seq<string>)
    ensures Lowered([first] + rest) <==> Lower(first) == first && Lowered(rest)
  {
    var list := [first] + rest;
    assert list[1..] == rest;
    assert LowerAll(list)[1..] == LowerAll(rest);
    if Lowered(list) {
      assert LowerAll(list)[0] == list[0];
    }
  }

  lemma {:induction false} LoweredOnce(list: seq<string>)
    ensures Lowered(LowerAll(list))
  {
    if list != [] {
      LowerTwice(list[0]);
      LoweredOnce(list[1..]);
      LoweredCons(Lower(list[0]), LowerAll(list[1..]));
    }
  }

  // ---------------------------------------------------------------- finding the list

  /** The first clause that constrains the measurement, or the number of clauses. */
  function ClauseAt(condition: seq<Clause>): (i: nat)
    ensures i <= |condition|
    ensures i < |condition| ==> CONDITION_KEY in condition[i].keys
  {
    if condition == [] || CONDITION_KEY in condition[0].keys then 0 else 1 + ClauseAt(condition[1..])
  }

  /** The first statement of the allow SID, or the number of statements. */
  function StatementAt(statements: seq<Statement>): (i: nat)
    ensures i <= |statements|
    ensures i < |statements| ==> statements[i].sid == Some(ALLOW_SID)
  {
    if statements == [] || statements[0].sid == Some(ALLOW_SID) then 0 else 1 + StatementAt(statements[1..])
  }

  function Entries(listed: Listed): seq<string> {
    match listed
    case One(v) => [Lower(v)]
    case Many(vs) => LowerAll(vs)
  }

  function ListIn(condition: seq<Clause>): seq<string> {
    var c := ClauseAt(condition);
    if c == |condition| then [] else Entries(condition[c].keys[CONDITION_KEY])
  }

  /** `current_list`: nothing when no statement has the allow SID, which the script refuses to guess at. */
  function CurrentList(policy: Policy): Option<seq<string>> {
    var s := StatementAt(policy.statements);
    if s == |policy.statements| then None else Some(ListIn(policy.statements[s].condition))
  }

  lemma {:induction false} CurrentListLowered(policy: Policy)
    ensures CurrentList(policy).Some? ==> Lowered(CurrentList(policy).value)
  {
    var s := StatementAt(policy.statements);
    if s < |policy.statements| {
      ListLowered(policy.statements[s].condition);
    }
  }

  lemma {:induction false} ListLowered(condition: seq<Clause>)
    ensures Lowered(ListIn(condition))
  {
    var c := ClauseAt(condition);
    if c < |condition| {
      match condition[c].keys[CONDITION_KEY]
      case One(v) =>
        LowerTwice(v);
        LoweredCons(Lower(v), []);
      case Many(vs) => LoweredOnce(vs);
    }
  }

  // ---------------------------------------------------------------- rewriting the list

  function SetClause(clause: Clause, values: seq<string>): Clause {
    clause.(keys := clause.keys[CONDITION_KEY := Many(values)])
  }

  /** `set_list`: nothing when there is no list to set, which the script refuses to add. */
  function SetList(policy: Policy, values: seq<string>): Option<Policy> {
    var s := StatementAt(policy.statements);
    if s == |policy.statements| then None
    else
      var st := policy.statements[s];
      var c := ClauseAt(st.condition);
      if c == |st.condition| then None
      else
        var edited := st.(condition := st.condition[c := SetClause(st.condition[c], values)]);
        Some(policy.(statements := policy.statements[s := edited]))
  }

  lemma {:induction false} ClauseStays(condition: seq<Clause>, i: nat, clause: Clause)
    requires i == ClauseAt(condition) < |condition| && CONDITION_KEY in clause.keys
    ensures ClauseAt(condition[i := clause]) == i
    decreases i
  {
    if i > 0 {
      ClauseStays(condition[1..], i - 1, clause);
      TailUpdate(condition, i, clause);
    }
  }

  lemma {:induction false} StatementStays(statements: seq<Statement>, i: nat, st: Statement)
    requires i == StatementAt(statements) < |statements| && st.sid == Some(ALLOW_SID)
    ensures StatementAt(statements[i := st]) == i
    decreases i
  {
    if i > 0 {
      StatementStays(statements[1..], i - 1, st);
      TailUpdate(statements, i, st);
    }
  }

  /** The policy with its allow-list emptied: every other statement, condition and key, in place. */
  function Skeleton(policy: Policy): Option<Policy> {
    SetList(policy, [])
  }

  /** Setting the list sets what is read next, and nothing else in the document. */
  lemma {:induction false} SetThenRead(policy: Policy, values: seq<string>)
    requires SetList(policy, values).Some? && Lowered(values)
    ensures CurrentList(SetList(policy, values).value) == Some(values)
    ensures Skeleton(SetList(policy, values).value) == Skeleton(policy)
    ensures Sids(SetList(policy, values).value) == Sids(policy)
  {
    var s := StatementAt(policy.statements);
    var st := policy.statements[s];
    var c := ClauseAt(st.condition);
    var clause := SetClause(st.condition[c], values);
    var edited := st.(condition := st.condition[c := clause]);
    ClauseStays(st.condition, c, clause);
    StatementStays(policy.statements, s, edited);
    assert SetClause(clause, []) == SetClause(st.condition[c], []);
    assert st.condition[c := clause][c := SetClause(clause, [])] == st.condition[c := SetClause(clause, [])];
    var emptied := edited.(condition := st.condition[c := SetClause(clause, [])]);
    assert policy.statements[s := edited][s := emptied] == policy.statements[s := emptied];
    SidsKept(policy.statements, s, edited);
  }

  function SidsOf(statements: seq<Statement>): set<Option<string>> {
    if statements == [] then {} else {statements[0].sid} + SidsOf(statements[1..])
  }

  function Sids(policy: Policy): set<Option<string>> {
    SidsOf(policy.statements)
  }

  lemma {:induction false} SidsKept(statements: seq<Statement>, i: nat, st: Statement)
    requires i < |statements| && st.sid == statements[i].sid
    ensures SidsOf(statements[i := st]) == SidsOf(statements)
    decreases i
  {
    if i > 0 {
      SidsKept(statements[1..], i - 1, st);
      TailUpdate(statements, i, st);
    } else {
      assert statements[i := st][1..] == statements[1..];
    }
  }

  /** What `put_policy` insists on before it writes. */
  predicate Repairable(policy: Policy) {
    Some(ADMIN_SID) in Sids(policy) && Some(DENY_SID) in Sids(policy)
  }

  // ---------------------------------------------------------------- by the document's own members

  /** The first statement with the SID, if any. */
  ghost predicate FirstSid(statements: seq<Statement>, sid: string, s: nat) {
    s < |statements| && statements[s].sid == Some(sid) && forall i :: 0 <= i < s ==> statements[i].sid != Some(sid)
  }

  ghost predicate FirstWith(condition: seq<Clause>, key: string, c: nat) {
    c < |condition| && key in condition[c].keys && forall i :: 0 <= i < c ==> key !in condition[i].keys
  }

  /** The entries in lower case, one string standing for a list of it. */
  ghost predicate Names(listed: Listed, entries: seq<string>) {
    match listed
    case One(v) => entries == [Lower(v)]
    case Many(vs) => |entries| == |vs| && forall i :: 0 <= i < |vs| ==> entries[i] == Lower(vs[i])
  }

  /** The list the document holds: under the measurement's key in the allow statement, and empty without one. */
  ghost predicate Holds(policy: Policy, list: Option<seq<string>>) {
    match list
    case None =>
      forall i :: 0 <= i < |policy.statements| ==> policy.statements[i].sid != Some("AllowDecryptOnlyFromAttestedEnclave")
    case Some(entries) =>
      exists s: nat :: FirstSid(policy.statements, "AllowDecryptOnlyFromAttestedEnclave", s) &&
        var condition := policy.statements[s].condition;
        if exists c: nat :: FirstWith(condition, "kms:RecipientAttestation:PCR0", c) then
          exists c: nat :: FirstWith(condition, "kms:RecipientAttestation:PCR0", c) &&
            Names(condition[c].keys["kms:RecipientAttestation:PCR0"], entries)
        else entries == []
  }

  lemma {:induction false} StatementAtIs(statements: seq<Statement>)
    ensures var s := StatementAt(statements);
            if s < |statements| then FirstSid(statements, ALLOW_SID, s)
            else forall i :: 0 <= i < |statements| ==> statements[i].sid != Some(ALLOW_SID)
  {
    if statements != [] && statements[0].sid != Some(ALLOW_SID) {
      StatementAtIs(statements[1..]);
      assert forall i :: 0 < i < |statements| ==> statements[i] == statements[1..][i - 1];
    }
  }

  lemma {:induction false} ClauseAtIs(condition: seq<Clause>)
    ensures var c := ClauseAt(condition);
            if c < |condition| then FirstWith(condition, CONDITION_KEY, c)
            else forall i :: 0 <= i < |condition| ==> CONDITION_KEY !in condition[i].keys
  {
    if condition != [] && CONDITION_KEY !in condition[0].keys {
      ClauseAtIs(condition[1..]);
      assert forall i :: 0 < i < |condition| ==> condition[i] == condition[1..][i - 1];
    }
  }

  lemma {:induction false} LowerAllIs(list: seq<string>)
    ensures forall i :: 0 <= i < |list| ==> LowerAll(list)[i] == Lower(list[i])
  {
    if list != [] { LowerAllIs(list[1..]); }
  }

  /** `current_list` reads what the document holds. */
  lemma {:induction false} CurrentListIs(policy: Policy)
    ensures Holds(policy, CurrentList(policy))
  {
    var s := StatementAt(policy.statements);
    StatementAtIs(policy.statements);
    if s < |policy.statements| {
      var condition := policy.statements[s].condition;
      var c := ClauseAt(condition);
      ClauseAtIs(condition);
      if c < |condition| && condition[c].keys[CONDITION_KEY].Many? { LowerAllIs(condition[c].keys[CONDITION_KEY].values); }
      assert FirstSid(policy.statements, "AllowDecryptOnlyFromAttestedEnclave", s);
    }
  }

  lemma {:induction false} SidsIs(statements: seq<Statement>, sid: Option<string>)
    ensures sid in SidsOf(statements) <==> exists i :: 0 <= i < |statements| && statements[i].sid == sid
  {
    if statements != [] {
      SidsIs(statements[1..], sid);
      assert forall i :: 0 < i < |statements| ==> statements[i] == statements[1..][i - 1];
      if i :| 0 <= i < |statements[1..]| && statements[1..][i].sid == sid { assert statements[i + 1].sid == sid; }
    }
  }

  /** A write is refused unless both statements that keep the key repairable are there. */
  lemma {:induction false} RepairableIs(policy: Policy)
    ensures Repairable(policy) <==>
            (exists i :: 0 <= i < |policy.statements| && policy.statements[i].sid == Some("ProvisionerAdmin")) &&
            (exists i :: 0 <= i < |policy.statements| && policy.statements[i].sid == Some("DenyDecryptWithoutAttestation"))
  {
    SidsIs(policy.statements, Some(ADMIN_SID));
    SidsIs(policy.statements, Some(DENY_SID));
  }
}
