/**
 The privilege oracle (ClientHasPermissions): a player is privileged when any
 configured rule matches. The first character of a rule string selects the
 host check: '@' a permission flag, '#' a group, anything else a command
 override. The host's answers are an uninterpreted `AdminOracle`.
 */
module Permissions {
  import opened Players

  /** The host authorization subsystem: three questions about a player and a rule string. */
  datatype AdminOracle = AdminOracle(
    hasPermission: (PlayerId, string) -> bool,   // AdminManager.PlayerHasPermissions
    inGroup: (PlayerId, string) -> bool,         // AdminManager.PlayerInGroup
    hasOverride: (PlayerId, string) -> bool      // AdminManager.PlayerHasCommandOverride
  )

  datatype RuleKind = PermissionFlag | GroupMembership | CommandOverride

  /** Dispatch on the rule's first character. */
  function KindOf(rule: string): (k: RuleKind)
    requires |rule| > 0
    ensures k == PermissionFlag <==> rule[0] == '@'
    ensures k == GroupMembership <==> rule[0] == '#'
  {
    match rule[0]
    case '@' => PermissionFlag
    case '#' => GroupMembership
    case _ => CommandOverride
  }

  /** One rule matches: the host check its kind selects, asked with the whole rule string. */
  predicate RuleMatches(oracle: AdminOracle, id: PlayerId, rule: string)
    requires |rule| > 0
  {
    match KindOf(rule)
    case PermissionFlag => oracle.hasPermission(id, rule)
    case GroupMembership => oracle.inGroup(id, rule)
    case CommandOverride => oracle.hasOverride(id, rule)
  }

  /** Every rule string can be indexed at 0. */
  predicate WellFormed(rules: seq<string>) {
    forall i :: 0 <= i < |rules| ==> |rules[i]| > 0
  }

  /** The reference meaning of privilege: the rules are well formed and at least one of them matches. */
  predicate Privileged(oracle: AdminOracle, rules: seq<string>, id: PlayerId) {
    && WellFormed(rules)
    && exists i :: 0 <= i < |rules| && RuleMatches(oracle, id, rules[i])
  }

  /** The outcome of a privilege check: a decision, or the index exception an empty rule string raises. */
  datatype Verdict = Decided(isAdmin: bool) | IndexFault

  /** Privilege as the host computes it, rule by rule from the front of the list. */
  function HasPermissions(oracle: AdminOracle, id: PlayerId, rules: seq<string>): (v: Verdict)
    ensures v == IndexFault <==> !WellFormed(rules)
    ensures v.Decided? ==> (v.isAdmin <==> Privileged(oracle, rules, id))
    decreases |rules|
  {
    if |rules| == 0 then Decided(false)
    else if |rules[0]| == 0 then IndexFault
    else
      match HasPermissions(oracle, id, rules[1..])
      case IndexFault => IndexFault
      case Decided(rest) => Decided(RuleMatches(oracle, id, rules[0]) || rest)
  }

  /** ClientHasPermissions as written: one pass over every rule, no early exit on a
      match, an accumulator set on each match; an empty rule aborts the pass. */
  method ClientHasPermissions(oracle: AdminOracle, id: PlayerId, rules: seq<string>) returns (v: Verdict)
    ensures v == IndexFault <==> !WellFormed(rules)
    ensures v.Decided? ==> (v.isAdmin <==> Privileged(oracle, rules, id))
  {
    var isAdmin := false;
    var i := 0;
    while i < |rules|
      invariant 0 <= i <= |rules|
      invariant forall j :: 0 <= j < i ==> |rules[j]| > 0
      invariant isAdmin <==> exists j :: 0 <= j < i && RuleMatches(oracle, id, rules[j])
    {
      var rule := rules[i];
      if |rule| == 0 {
        return IndexFault;
      }
      match KindOf(rule) {
        case PermissionFlag =>
          if oracle.hasPermission(id, rule) {
            isAdmin := true;
          }
        case GroupMembership =>
          if oracle.inGroup(id, rule) {
            isAdmin := true;
          }
        case CommandOverride =>
          if oracle.hasOverride(id, rule) {
            isAdmin := true;
          }
      }
      i := i + 1;
    }
    return Decided(isAdmin);
  }

  /** OR semantics: whichever single rule matches, a well-formed list grants privilege. */
  lemma AnyMatchingRuleGrants(oracle: AdminOracle, id: PlayerId, rules: seq<string>, i: nat)
    requires WellFormed(rules)
    requires i < |rules| && RuleMatches(oracle, id, rules[i])
    ensures HasPermissions(oracle, id, rules) == Decided(true)
  {
  }

  /** An empty rule list never grants privilege and never faults. */
  lemma NoRulesNoPrivilege(oracle: AdminOracle, id: PlayerId)
    ensures HasPermissions(oracle, id, []) == Decided(false)
  {
  }

  /** Two lists holding the same rules, each as often, in any order, get the same
      verdict, fault included. */
  lemma RuleOrderIrrelevant(oracle: AdminOracle, id: PlayerId, a: seq<string>, b: seq<string>)
    requires multiset(a) == multiset(b)
    ensures HasPermissions(oracle, id, a) == HasPermissions(oracle, id, b)
  {
    SameElementsSameVerdict(oracle, id, a, b);
    SameElementsSameVerdict(oracle, id, b, a);
  }

  /** Every rule of `a` also occurs in `b`, so well-formedness of `b` carries over to `a`
      and a rule of `a` that matches is also a rule of `b`. */
  lemma SameElementsSameVerdict(oracle: AdminOracle, id: PlayerId, a: seq<string>, b: seq<string>)
    requires multiset(a) == multiset(b)
    ensures WellFormed(b) ==> WellFormed(a)
    ensures WellFormed(a) && WellFormed(b) && Privileged(oracle, a, id) ==> Privileged(oracle, b, id)
  {
    forall i | 0 <= i < |a| ensures exists j :: 0 <= j < |b| && b[j] == a[i] {
      assert a[i] in multiset(a);
      assert a[i] in b;
    }
    if WellFormed(a) && WellFormed(b) && Privileged(oracle, a, id) {
      var i :| 0 <= i < |a| && RuleMatches(oracle, id, a[i]);
      var j :| 0 <= j < |b| && b[j] == a[i];
      assert RuleMatches(oracle, id, b[j]);
    }
  }

  /** With the shipped rules ["@css/chat", "#css/admin"], privilege means holding the
      permission "@css/chat" or being in the group "#css/admin". */
  lemma DefaultRulesMeaning(oracle: AdminOracle, id: PlayerId)
    ensures HasPermissions(oracle, id, ["@css/chat", "#css/admin"])
         == Decided(oracle.hasPermission(id, "@css/chat") || oracle.inGroup(id, "#css/admin"))
  {
  }
}
