/** Address filtering: lists of rules, the first that does not pass decides. */
module Filtering {
  import opened Turn

  datatype Action = Pass | Allow | Deny

  /** A subnet of one address family: the addresses that share the first `prefix` of `width` bits with `base`. */
  datatype Subnet = Subnet4(base: nat, prefix: nat) | Subnet6(base: nat, prefix: nat)

  datatype Rule =
    | NetRule(action: Action, net: Subnet)
    | AllowAll
    | RuleList(default: Action, rules: seq<Rule>)

  function Pow2(n: nat): (p: nat)
    ensures p > 0
  {
    if n == 0 then 1 else 2 * Pow2(n - 1)
  }

  predicate SamePrefix(a: nat, b: nat, width: nat, prefix: nat) {
    prefix <= width && a / Pow2(width - prefix) == b / Pow2(width - prefix)
  }

  predicate Contains(net: Subnet, ip: IP) {
    match (net, ip)
    case (Subnet4(base, prefix), V4(bits)) => SamePrefix(base, bits, 32, prefix)
    case (Subnet6(base, prefix), V6(bits)) => SamePrefix(base, bits, 128, prefix)
    case _ => false
  }

  lemma Doubled(x: nat, y: nat)
    ensures 2 * (x * y) == (2 * x) * y
  {
  }

  lemma {:induction false} Pow2Adds(a: nat, b: nat)
    ensures Pow2(a + b) == Pow2(a) * Pow2(b)
  {
    if a > 0 {
      Pow2Adds(a - 1, b);
      Doubled(Pow2(a - 1), Pow2(b));
      assert Pow2(a + b) == 2 * Pow2(a - 1 + b) && Pow2(a) == 2 * Pow2(a - 1);
    }
  }

  lemma {:induction false} Pow2Squares(a: nat)
    ensures Pow2(2 * a) == Pow2(a) * Pow2(a)
  {
    Pow2Adds(a, a);
    assert a + a == 2 * a;
  }

  /** Pow2 is the power of two: it adds exponents, and there are 65536 * 65536 IPv4 addresses. */
  lemma {:induction false} Pow2Is(a: nat, b: nat)
    ensures Pow2(0) == 1 && Pow2(1) == 2 && Pow2(a + b) == Pow2(a) * Pow2(b)
    ensures Pow2(8) == 256 && Pow2(32) == 65536 * 65536
  {
    Pow2Adds(a, b);
    assert Pow2(2) == 2 * Pow2(1) == 4 * Pow2(0) == 4;
    Pow2Squares(2);
    Pow2Squares(4);
    assert Pow2(8) == 256;
    Pow2Squares(8);
    assert Pow2(16) == 65536;
    Pow2Squares(16);
  }

  /** A subnet is the block of addresses from its base with the host bits cleared. */
  lemma SubnetIsBlock(base: nat, bits: nat, width: nat, prefix: nat)
    requires prefix <= width
    ensures var size := Pow2(width - prefix); var first := base - base % size;
      SamePrefix(base, bits, width, prefix) <==> first <= bits < first + size
  {
    var size := Pow2(width - prefix);
    BlockOf(base, bits, size);
  }

  lemma BlockOf(a: nat, b: nat, d: nat)
    requires d > 0
    ensures a / d == b / d <==> a - a % d <= b < a - a % d + d
  {
    var q, r := a / d, b / d;
    Division(a, d);
    Division(b, d);
    if q < r {
      MultiplesApart(q, r, d);
    } else if r < q {
      MultiplesApart(r, q, d);
    }
  }

  lemma Division(a: nat, d: nat)
    requires d > 0
    ensures a == (a / d) * d + a % d && 0 <= a % d < d
  {
  }

  lemma {:induction false} MultiplesApart(q: nat, r: nat, d: nat)
    requires q < r
    ensures q * d + d <= r * d
  {
    if r == q + 1 {
      assert r * d == q * d + d;
    } else {
      MultiplesApart(q, r - 1, d);
      assert r * d == (r - 1) * d + d;
    }
  }

  function Act(r: Rule, ip: IP): Action
    decreases r
  {
    match r
    case NetRule(action, net) => if Contains(net, ip) then action else Pass
    case AllowAll => Allow
    case RuleList(default, rules) => ActList(default, rules, ip)
  }

  function ActList(default: Action, rules: seq<Rule>, ip: IP): Action
    decreases rules
  {
    if rules == [] then default
    else
      var a := Act(rules[0], ip);
      if a == Pass then ActList(default, rules[1..], ip) else a
  }

  predicate Allowed(r: Rule, ip: IP) {
    Act(r, ip) == Allow
  }

  /** `bits` lies in the aligned block of `size` addresses around `base`. */
  predicate InBlock(bits: nat, base: nat, size: nat)
    requires size > 0
  {
    var first := base - base % size;
    first <= bits < first + size
  }

  /**
   A subnet rule applies its action to exactly the addresses of its family in the block of
   2^(width - prefix) around its base, where an IPv4 address has 32 bits and an IPv6 address
   128, and passes all others.
   */
  lemma SubnetRuleActs(action: Action, base: nat, prefix: nat, bits: nat)
    ensures prefix <= 32 ==>
      Act(NetRule(action, Subnet4(base, prefix)), V4(bits)) == if InBlock(bits, base, Pow2(32 - prefix)) then action else Pass
    ensures prefix <= 128 ==>
      Act(NetRule(action, Subnet6(base, prefix)), V6(bits)) == if InBlock(bits, base, Pow2(128 - prefix)) then action else Pass
    ensures Act(NetRule(action, Subnet4(base, prefix)), V6(bits)) == Pass
    ensures Act(NetRule(action, Subnet6(base, prefix)), V4(bits)) == Pass
    ensures Act(NetRule(action, Subnet4(base, prefix)), NoIP) == Pass && Act(NetRule(action, Subnet6(base, prefix)), NoIP) == Pass
    ensures Act(AllowAll, V4(bits)) == Act(AllowAll, V6(bits)) == Act(AllowAll, NoIP) == Allow
  {
    if prefix <= 32 { SubnetIsBlock(base, bits, 32, prefix); }
    if prefix <= 128 { SubnetIsBlock(base, bits, 128, prefix); }
  }

  /** Rule `i` is the first that does not pass. */
  ghost predicate Decides(rules: seq<Rule>, ip: IP, i: int) {
    0 <= i < |rules| && Act(rules[i], ip) != Pass && forall j :: 0 <= j < i ==> Act(rules[j], ip) == Pass
  }

  /** The deciding rule, if there is one. */
  lemma {:induction false} Decider(rules: seq<Rule>, ip: IP) returns (i: nat)
    ensures i <= |rules|
    ensures i < |rules| ==> Decides(rules, ip, i)
    ensures i == |rules| ==> forall j :: 0 <= j < |rules| ==> Act(rules[j], ip) == Pass
  {
    i := 0;
    while i < |rules| && Act(rules[i], ip) == Pass
      invariant 0 <= i <= |rules|
      invariant forall j :: 0 <= j < i ==> Act(rules[j], ip) == Pass
    {
      i := i + 1;
    }
  }

  /** A list acts as its first rule that does not pass, or as its default if all pass. */
  lemma {:induction false} FirstDecides(default: Action, rules: seq<Rule>, ip: IP, i: nat)
    requires i <= |rules| && forall j :: 0 <= j < i ==> Act(rules[j], ip) == Pass
    requires i < |rules| ==> Act(rules[i], ip) != Pass
    ensures ActList(default, rules, ip) == if i < |rules| then Act(rules[i], ip) else default
  {
    if i > 0 {
      FirstDecides(default, rules[1..], ip, i - 1);
    }
  }

  /** What is allowed: the deciding rule allows it, or none decides and the default allows it. */
  lemma AllowedIff(default: Action, rules: seq<Rule>, ip: IP)
    ensures Allowed(RuleList(default, rules), ip) <==>
      (exists i :: Decides(rules, ip, i) && Act(rules[i], ip) == Allow)
      || (default == Allow && forall i :: 0 <= i < |rules| ==> Act(rules[i], ip) == Pass)
  {
    var i := Decider(rules, ip);
    FirstDecides(default, rules, ip, i);
    forall k | Decides(rules, ip, k) ensures k == i {}
  }
}
