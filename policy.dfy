/**
  The session-policy builder: a policy document `{"Version": v, "Statement": [...]}`
  whose statement list grows, one S3 or KMS statement per call.
*/
module Policy {
  import opened Wrappers
  import opened Json

  const DefaultVersion: string := "2012-10-17"

  /** An argument that the caller may give as one `str` or as a list of them. */
  datatype Strs = One(s: string) | Many(items: seq<string>)

  /** The normalisation `x = [x] if isinstance(x, str)`: a lone string becomes a singleton list. */
  function AsList(x: Strs): seq<string> {
    match x
    case One(s) => [s]
    case Many(items) => items
  }

  /** The members of a statement dict, in insertion order. */
  function StatementMembers(effect: string, actions: Strs, resources: Strs, conditions: Option<Json>): seq<(string, Json)> {
    [("Effect", JStr(effect)), ("Action", StrList(AsList(actions))), ("Resource", StrList(AsList(resources)))] +
      (if conditions.Some? then [("Condition", conditions.value)] else [])
  }

  lemma StatementKeys(effect: string, actions: Strs, resources: Strs, conditions: Option<Json>)
    ensures Keys(Obj(StatementMembers(effect, actions, resources, conditions))) ==
      ["Effect", "Action", "Resource"] + (if conditions.Some? then ["Condition"] else [])
  {
  }

  lemma StatementLookups(effect: string, actions: Strs, resources: Strs, conditions: Option<Json>)
    ensures Lookup(Obj(StatementMembers(effect, actions, resources, conditions)), "Effect") == Some(JStr(effect))
    ensures Lookup(Obj(StatementMembers(effect, actions, resources, conditions)), "Action") == Some(StrList(AsList(actions)))
    ensures Lookup(Obj(StatementMembers(effect, actions, resources, conditions)), "Resource") == Some(StrList(AsList(resources)))
    ensures Lookup(Obj(StatementMembers(effect, actions, resources, conditions)), "Condition") == conditions
  {
    var tail := if conditions.Some? then [("Condition", conditions.value)] else [];
    var m2 := [("Resource", StrList(AsList(resources)))] + tail;
    var m1 := [("Action", StrList(AsList(actions)))] + m2;
    assert StatementMembers(effect, actions, resources, conditions) == [("Effect", JStr(effect))] + m1;
    LookupHead("Effect", JStr(effect), m1);
    LookupTail("Effect", JStr(effect), m1, "Action");
    LookupHead("Action", StrList(AsList(actions)), m2);
    LookupTail("Effect", JStr(effect), m1, "Resource");
    LookupTail("Action", StrList(AsList(actions)), m2, "Resource");
    LookupHead("Resource", StrList(AsList(resources)), tail);
    LookupTail("Effect", JStr(effect), m1, "Condition");
    LookupTail("Action", StrList(AsList(actions)), m2, "Condition");
    LookupTail("Resource", StrList(AsList(resources)), tail, "Condition");
    assert Lookup(Obj(tail), "Condition") == conditions;
  }

  /** The statement dict: `Effect`, `Action`, `Resource`, and `Condition` only when conditions are given. */
  function Statement(effect: string, actions: Strs, resources: Strs, conditions: Option<Json>): (st: Json)
    ensures Keys(st) == ["Effect", "Action", "Resource"] + (if conditions.Some? then ["Condition"] else [])
    ensures Lookup(st, "Effect") == Some(JStr(effect))
    ensures Lookup(st, "Action") == Some(StrList(AsList(actions)))
    ensures Lookup(st, "Resource") == Some(StrList(AsList(resources)))
    ensures Lookup(st, "Condition") == conditions
  {
    StatementKeys(effect, actions, resources, conditions);
    StatementLookups(effect, actions, resources, conditions);
    Obj(StatementMembers(effect, actions, resources, conditions))
  }

  class S3SessionPolicyBuilder {
    var version: string
    var statements: seq<Json>

    /** The policy document as it stands. */
    function Document(): (doc: Json)
      reads this
      ensures Keys(doc) == ["Version", "Statement"]
      ensures Lookup(doc, "Version") == Some(JStr(version))
      ensures Lookup(doc, "Statement") == Some(Arr(statements))
    {
      var doc := Obj([("Version", JStr(version)), ("Statement", Arr(statements))]);
      assert Lookup(Obj([("Statement", Arr(statements))]), "Statement") == Some(Arr(statements));
      doc
    }

    /** `S3SessionPolicyBuilder(version)`: the given version and no statements. */
    constructor (version: string)
      ensures this.version == version && statements == []
    {
      this.version := version;
      statements := [];
    }

    /** `S3SessionPolicyBuilder()`: the default version `2012-10-17` and no statements. */
    constructor Default()
      ensures version == DefaultVersion && statements == []
    {
      version := DefaultVersion;
      statements := [];
    }

    /** Appends one S3 statement at the end and returns the builder itself. */
    method AddS3Statement(effect: string, actions: Strs, resources: Strs, conditions: Option<Json>)
      returns (self: S3SessionPolicyBuilder)
      modifies this
      ensures self == this
      ensures version == old(version)
      ensures statements == old(statements) + [Statement(effect, actions, resources, conditions)]
    {
      statements := statements + [Statement(effect, actions, resources, conditions)];
      self := this;
    }

    /** Appends one KMS statement, whose resources are the key ARNs, and returns the builder itself. */
    method AddKmsStatement(effect: string, actions: Strs, keyArns: Strs, conditions: Option<Json>)
      returns (self: S3SessionPolicyBuilder)
      modifies this
      ensures self == this
      ensures version == old(version)
      ensures statements == old(statements) + [Statement(effect, actions, keyArns, conditions)]
    {
      statements := statements + [Statement(effect, actions, keyArns, conditions)];
      self := this;
    }

    /** `build()`: the current policy, leaving the builder as it is. */
    method Build() returns (policy: Json)
      ensures Keys(policy) == ["Version", "Statement"]
      ensures Lookup(policy, "Version") == Some(JStr(version))
      ensures Lookup(policy, "Statement") == Some(Arr(statements))
    {
      policy := Document();
    }
  }

  /**
    A fresh builder with one S3 and then one KMS statement added through the
    returned builder: the policy holds the version and both statements, in
    call order.
  */
  method ChainedPolicy(version: string, effect: string, s3Actions: Strs, resources: Strs,
                       kmsActions: Strs, keyArns: Strs) returns (policy: Json)
    ensures Lookup(policy, "Version") == Some(JStr(version))
    ensures Lookup(policy, "Statement") == Some(Arr([
      Statement(effect, s3Actions, resources, None),
      Statement(effect, kmsActions, keyArns, None)]))
  {
    var builder := new S3SessionPolicyBuilder(version);
    var b1 := builder.AddS3Statement(effect, s3Actions, resources, None);
    assert builder.statements == [Statement(effect, s3Actions, resources, None)];
    var b2 := b1.AddKmsStatement(effect, kmsActions, keyArns, None);
    assert builder.statements == [Statement(effect, s3Actions, resources, None), Statement(effect, kmsActions, keyArns, None)];
    assert builder.version == version;
    policy := b2.Build();
  }
}
