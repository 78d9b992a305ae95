/**
 * The tree of one list group and the check of its numbering order. The tree is an
 * arena: node `k` names its parent by position (`-1` for the root), and every parent
 * comes before its children. The traversal of the source visits the root's children
 * in order and each child's subtree right after it; `Visit` lists the nodes in that
 * order together with the context the traversal hands down.
 */
module ListTree {
  import opened Wrappers
  import opened Text
  import opened Patterns
  import opened Extraction

  /** `[int(x) for x in re.findall(r'\d+', s)]`. */
  function DigitRuns(s: string): (nums: seq<nat>)
    ensures |nums| <= |s|
    decreases |s|
  {
    if s == [] then []
    else if !IsDigit(s[0]) then DigitRuns(s[1..])
    else
      var n := LeadingDigits(s);
      [DigitsValue(s[..n])] + DigitRuns(s[n..])
  }

  /** A run of digits followed by a non-digit is read as one number. */
  lemma DigitRunsHead(d: string, rest: string)
    requires AllDigits(d) && (rest == [] || !IsDigit(rest[0]))
    ensures DigitRuns(d + rest) == [DigitsValue(d)] + DigitRuns(rest)
  {
    DigitsThen(d, rest);
    assert (d + rest)[..|d|] == d;
    assert (d + rest)[|d|..] == rest;
  }

  /** A non-digit is passed over. */
  lemma DigitRunsSkip(c: char, s: string)
    requires !IsDigit(c)
    ensures DigitRuns([c] + s) == DigitRuns(s)
  {
    assert ([c] + s)[1..] == s;
  }

  /** A dotted number written by `'.'.join` and followed by no digit is read back. */
  lemma {:induction false} DigitRunsJoinDots(nums: seq<nat>, rest: string)
    requires |nums| > 0 && (rest == [] || !IsDigit(rest[0])) && DigitRuns(rest) == []
    ensures DigitRuns(JoinDots(nums) + rest) == nums
    decreases |nums|
  {
    if |nums| == 1 {
      NatToStringRoundTrip(nums[0]);
      DigitRunsHead(NatToString(nums[0]), rest);
    } else {
      DigitRunsJoinDots(nums[1..], rest);
      JoinDotsCons(nums);
      DigitRunsDotted(nums[0], JoinDots(nums[1..]), rest, nums[1..]);
      assert nums == [nums[0]] + nums[1..];
    }
  }

  /** A number, a dot, then text read as `ns`, is read as the number followed by `ns`. */
  lemma DigitRunsDotted(h: nat, tail: string, rest: string, ns: seq<nat>)
    requires DigitRuns(tail + rest) == ns
    ensures DigitRuns(NatToString(h) + "." + tail + rest) == [h] + ns
  {
    var head := NatToString(h);
    assert head + "." + tail + rest == head + ("." + (tail + rest));
    NatToStringRoundTrip(h);
    DigitRunsHead(head, "." + (tail + rest));
    DigitRunsSkip('.', tail + rest);
  }

  /** A list prefix with no digit in it. */
  lemma NoDigitsNoRuns(s: string)
    requires forall k :: 0 <= k < |s| ==> !IsDigit(s[k])
    ensures DigitRuns(s) == []
    decreases |s|
  {
    if s != [] {
      NoDigitsNoRuns(s[1..]);
    }
  }

  /** `ListNode`: `level` is the number of numbers less one; `parent` is `-1` for the root. */
  datatype Node = Node(prefix: string, level: nat, numbers: seq<nat>, index: nat, parent: int)

  /** Every node has one number more than its level, and its parent comes first, one level up. */
  predicate WellFormed(nodes: seq<Node>) {
    forall k :: 0 <= k < |nodes| ==>
      |nodes[k].numbers| == nodes[k].level + 1
      && -1 <= nodes[k].parent < k
      && (nodes[k].parent >= 0 ==> nodes[nodes[k].parent].level + 1 == nodes[k].level)
  }

  /** An entry of `current_parents`: the node and its numbers. */
  datatype Parent = Parent(node: nat, numbers: seq<nat>)

  /** The state of `build_list_tree`: the nodes so far, `current_parents` and `counters`. */
  datatype Builder = Builder(nodes: seq<Node>, parents: map<int, Parent>, counters: map<int, nat>)

  const Empty := Builder([], map[], map[])

  /** The entries of `m` at `level` and shallower: the loop that deletes deeper levels. */
  function UpTo<V>(m: map<int, V>, level: int): (r: map<int, V>)
    ensures forall l :: l in r <==> l in m && l <= level
    ensures forall l :: l in r ==> r[l] == m[l]
  {
    map l | l in m && l <= level :: m[l]
  }

  /**
   * Attaches the node of `it` (numbers `nums`) under `current_parents.get(level - 1, root)`;
   * `parentNumbers` is what the counter reset compares against.
   */
  function Attach(b: Builder, it: Item, nums: seq<nat>, parentNumbers: seq<nat>): Builder
    requires |nums| > 0
  {
    var level := |nums| - 1;
    var parent: int := if level - 1 in b.parents then b.parents[level - 1].node else -1;
    var reset := level in b.counters && level >= 1 && parentNumbers != nums[..level];
    var count := (if reset || level !in b.counters then 0 else b.counters[level]) + 1;
    var k := |b.nodes|;
    Builder(b.nodes + [Node(it.prefix, level, nums, it.index, parent)],
            UpTo(b.parents[level := Parent(k, nums)], level),
            UpTo(b.counters[level := count], level))
  }

  /** The numbers of the parent the reset looks at: the root's are empty. */
  function ParentNumbers(b: Builder, level: int): seq<nat> {
    if level - 1 in b.parents then b.parents[level - 1].numbers else []
  }

  /**
   * One item as the source is written: `current_parents[parent_level]` raises `KeyError`
   * (`None`) when the level was seen before but the level above is no longer open.
   */
  function StepAsWritten(b: Builder, it: Item): Option<Builder> {
    var nums := DigitRuns(it.prefix);
    if nums == [] then Some(b)
    else
      var level := |nums| - 1;
      if level in b.counters && level >= 1 && level - 1 !in b.parents then None
      else Some(Attach(b, it, nums, ParentNumbers(b, level)))
  }

  /** One item with the lookup made total: a missing parent level means the root, as `get` does above. */
  function Step(b: Builder, it: Item): Builder {
    var nums := DigitRuns(it.prefix);
    if nums == [] then b
    else Attach(b, it, nums, ParentNumbers(b, |nums| - 1))
  }

  function BuildAsWrittenFrom(group: Group, n: nat): Option<Builder>
    requires n <= |group|
  {
    if n == 0 then Some(Empty)
    else match BuildAsWrittenFrom(group, n - 1)
      case None => None
      case Some(b) => StepAsWritten(b, group[n - 1])
  }

  /** `build_list_tree` as written, `None` where it raises. */
  function BuildAsWritten(group: Group): Option<seq<Node>> {
    match BuildAsWrittenFrom(group, |group|)
    case None => None
    case Some(b) => Some(b.nodes)
  }

  function BuildFrom(group: Group, n: nat): Builder
    requires n <= |group|
  {
    if n == 0 then Empty else Step(BuildFrom(group, n - 1), group[n - 1])
  }

  /** The tree of a group, with the lookup that cannot raise. */
  function Tree(group: Group): seq<Node> {
    BuildFrom(group, |group|).nodes
  }

  /**
   * What the loop keeps: the nodes are well formed, every open level names a node of that
   * level with the same numbers, and `counters` has exactly the open levels as keys.
   */
  predicate BuilderOk(b: Builder) {
    WellFormed(b.nodes)
    && (forall l :: l in b.parents ==>
          0 <= l && b.parents[l].node < |b.nodes|
          && b.nodes[b.parents[l].node].level == l
          && b.nodes[b.parents[l].node].numbers == b.parents[l].numbers)
    && b.parents.Keys == b.counters.Keys
  }

  lemma StepOk(b: Builder, it: Item)
    requires BuilderOk(b)
    ensures BuilderOk(Step(b, it))
  {
    var nums := DigitRuns(it.prefix);
    if nums != [] {
      var level := |nums| - 1;
      var b' := Step(b, it);
      assert b'.nodes == b.nodes + [b'.nodes[|b.nodes|]];
      forall l | l in b'.parents
        ensures 0 <= l && b'.parents[l].node < |b'.nodes|
        ensures b'.nodes[b'.parents[l].node].level == l
        ensures b'.nodes[b'.parents[l].node].numbers == b'.parents[l].numbers
      {
        if l != level {
          assert l in b.parents;
        }
      }
    }
  }

  lemma {:induction false} BuildOk(group: Group, n: nat)
    requires n <= |group|
    ensures BuilderOk(BuildFrom(group, n))
  {
    if n > 0 {
      BuildOk(group, n - 1);
      StepOk(BuildFrom(group, n - 1), group[n - 1]);
    }
  }

  /** The tree is an arena whose parents precede their children, one level up. */
  lemma TreeWellFormed(group: Group)
    ensures WellFormed(Tree(group))
  {
    BuildOk(group, |group|);
  }

  /** Where the source does not raise, it builds the same tree as the total lookup. */
  lemma StepAgrees(b: Builder, it: Item)
    requires BuilderOk(b)
    ensures StepAsWritten(b, it).Some? ==> StepAsWritten(b, it).value == Step(b, it)
    ensures StepAsWritten(b, it).None? <==>
      var nums := DigitRuns(it.prefix);
      nums != [] && |nums| - 1 in b.parents && |nums| >= 2 && |nums| - 2 !in b.parents
  {
  }

  lemma {:induction false} BuildAgrees(group: Group, n: nat)
    requires n <= |group|
    ensures BuildAsWrittenFrom(group, n).Some? ==> BuildAsWrittenFrom(group, n).value == BuildFrom(group, n)
  {
    if n > 0 && BuildAsWrittenFrom(group, n - 1).Some? {
      var b := BuildFrom(group, n - 1);
      assert BuildAsWrittenFrom(group, n - 1).value == b by {
        BuildAgrees(group, n - 1);
      }
      BuildOk(group, n - 1);
      StepAgrees(b, group[n - 1]);
    }
  }

  lemma AsWrittenAgrees(group: Group)
    ensures BuildAsWritten(group).Some? ==> BuildAsWritten(group).value == Tree(group)
  {
    BuildAgrees(group, |group|);
  }

  /** A group that opens on two second-level items makes the source raise on the second. */
  lemma NestedStartRaises(a: Item, b: Item)
    requires |DigitRuns(a.prefix)| == 2 && |DigitRuns(b.prefix)| == 2
    ensures BuildAsWritten([a, b]).None?
  {
    var b1 := Attach(Empty, a, DigitRuns(a.prefix), []);
    assert BuildAsWrittenFrom([a, b], 1) == Some(b1);
    assert 1 in b1.counters && 0 !in b1.parents;
  }

  /** `1.1` and `1.2` are two second-level prefixes. */
  lemma SecondLevelPrefixes()
    ensures DigitRuns("1.1") == [1, 1] && DigitRuns("1.2") == [1, 2]
  {
    assert NatToString(1) == "1" && NatToString(2) == "2";
    TwoLevelRuns(1, 1);
    TwoLevelRuns(1, 2);
  }

  /** A two-level prefix `a.b` is read back as `[a, b]`. */
  lemma TwoLevelRuns(a: nat, b: nat)
    ensures DigitRuns(NatToString(a) + "." + NatToString(b)) == [a, b]
  {
    var s := NatToString(a) + "." + NatToString(b);
    assert JoinDots([a, b]) == s by {
      JoinDotsCons([a, b]);
      assert [a, b][1..] == [b];
    }
    assert s + "" == s;
    DigitRunsJoinDots([a, b], "");
  }

  /** `build_list_tree`: one pass over the group, updating `current_parents` and `counters`. */
  method BuildListTree(group: Group) returns (nodes: seq<Node>)
    ensures nodes == Tree(group)
    ensures WellFormed(nodes)
  {
    nodes := [];
    var parents: map<int, Parent> := map[];
    var counters: map<int, nat> := map[];
    for i := 0 to |group|
      invariant Builder(nodes, parents, counters) == BuildFrom(group, i)
    {
      var it := group[i];
      var nums := DigitRuns(it.prefix);
      if nums != [] {
        var level := |nums| - 1;
        var parent: int := if level - 1 in parents then parents[level - 1].node else -1;
        var parentNumbers := if level - 1 in parents then parents[level - 1].numbers else [];
        // a changed parent restarts the level's count; the count itself is never read
        var reset := level in counters && level >= 1 && parentNumbers != nums[..level];
        var count := (if reset || level !in counters then 0 else counters[level]) + 1;
        AttachStep(Builder(nodes, parents, counters), it, parent, count);
        var k := |nodes|;
        nodes := nodes + [Node(it.prefix, level, nums, it.index, parent)];
        parents := UpTo(parents[level := Parent(k, nums)], level);
        counters := UpTo(counters[level := count], level);
      }
    }
    TreeWellFormed(group);
  }

  /** One attaching step of the loop, with the parent and the count it works out. */
  lemma AttachStep(b: Builder, it: Item, parent: int, count: nat)
    requires var nums := DigitRuns(it.prefix); var level := |nums| - 1;
      && nums != []
      && parent == (if level - 1 in b.parents then b.parents[level - 1].node else -1)
      && count == (if (level in b.counters && level >= 1 && ParentNumbers(b, level) != nums[..level]) || level !in b.counters
                   then 0 else b.counters[level]) + 1
    ensures var nums := DigitRuns(it.prefix); var level := |nums| - 1;
      Step(b, it)
      == Builder(b.nodes + [Node(it.prefix, level, nums, it.index, parent)],
                 UpTo(b.parents[level := Parent(|b.nodes|, nums)], level),
                 UpTo(b.counters[level := count], level))
  {
  }

  /** A visit of the traversal: the node, and the `parent_number` and `parent_prefix` it is given. */
  datatype Stop = Stop(node: nat, parentNumber: Option<nat>, parentPrefix: string)

  predicate Numbered(nodes: seq<Node>) {
    forall k :: 0 <= k < |nodes| ==> |nodes[k].numbers| == nodes[k].level + 1
  }

  /**
   * `traverse` over the children of `p` from position `from` on, each followed by its own
   * subtree; a level-0 node hands down its first number, a node below level 2 its prefix.
   */
  function Visit(nodes: seq<Node>, p: int, number: Option<nat>, prefix: string, from: nat): (stops: seq<Stop>)
    requires Numbered(nodes)
    ensures forall t :: 0 <= t < |stops| ==> from <= stops[t].node < |nodes|
    decreases |nodes| - from
  {
    if from >= |nodes| then []
    else
      var n := nodes[from];
      var number' := if n.level == 0 then Some(n.numbers[0]) else number;
      var prefix' := if n.level < 2 then n.prefix else prefix;
      (if n.parent == p then [Stop(from, number, prefix)] + Visit(nodes, from, number', prefix', from + 1) else [])
      + Visit(nodes, p, number, prefix, from + 1)
  }

  /** The order `check_numbering_order` visits the nodes in, from the root. */
  function PreOrder(nodes: seq<Node>): seq<Stop>
    requires Numbered(nodes)
  {
    Visit(nodes, -1, None, "", 0)
  }

  /**
   * An error tuple: the position, the prefix found, the numbers of the prefix expected and
   * its closing character, and the item's paragraph.
   */
  datatype OrderError = OrderError(position: nat, got: string, expected: seq<nat>, suffix: char, index: nat)

  /** The expected prefix as the source writes it: `'.'.join(...) + suffix`. */
  function ExpectedPrefix(e: OrderError): string {
    JoinDots(e.expected) + [e.suffix]
  }

  /** `level_counters` is keyed by the level and the prefix handed down. */
  type Key = (nat, string)

  function KeyOf(nodes: seq<Node>, s: Stop): Key
    requires s.node < |nodes|
  {
    (nodes[s.node].level, s.parentPrefix)
  }

  /** The errors of one node at `position`, when the counter of its context says `expected`. */
  function NodeErrors(n: Node, s: Stop, position: nat, expected: nat): seq<OrderError>
    requires |n.numbers| == n.level + 1
  {
    var suffix := if EndsWith(n.prefix, ")") then ')' else '.';
    (if n.numbers[n.level] != expected
     then [OrderError(position, n.prefix, n.numbers[..n.level] + [expected], suffix, n.index)]
     else [])
    + (if n.level == 0 then []
       else match s.parentNumber
         case None => [OrderError(position, n.prefix, n.numbers, suffix, n.index)]
         case Some(pn) =>
           if n.numbers[0] != pn then [OrderError(position, n.prefix, [pn] + n.numbers[1..], suffix, n.index)]
           else [])
  }

  /** The state of the traversal: `level_counters` and `errors`. */
  datatype Checker = Checker(counters: map<Key, nat>, errors: seq<OrderError>)

  predicate StopsIn(nodes: seq<Node>, stops: seq<Stop>) {
    forall t :: 0 <= t < |stops| ==> stops[t].node < |nodes|
  }

  /** The state after the first `t` visits; the visit at `t` has position `t + 1`. */
  function CheckUpTo(nodes: seq<Node>, stops: seq<Stop>, t: nat): Checker
    requires Numbered(nodes) && StopsIn(nodes, stops) && t <= |stops|
  {
    if t == 0 then Checker(map[], [])
    else
      var c := CheckUpTo(nodes, stops, t - 1);
      var s := stops[t - 1];
      var key := KeyOf(nodes, s);
      var expected := (if key in c.counters then c.counters[key] else 0) + 1;
      Checker(c.counters[key := expected], c.errors + NodeErrors(nodes[s.node], s, t, expected))
  }

  /** `check_numbering_order(root)`. */
  function NumberingErrors(nodes: seq<Node>): seq<OrderError>
    requires Numbered(nodes)
  {
    var stops := PreOrder(nodes);
    CheckUpTo(nodes, stops, |stops|).errors
  }

  /** How many of the first `t` visits share the context `key`. */
  function CountKey(nodes: seq<Node>, stops: seq<Stop>, t: nat, key: Key): nat
    requires StopsIn(nodes, stops) && t <= |stops|
  {
    if t == 0 then 0
    else CountKey(nodes, stops, t - 1, key) + (if KeyOf(nodes, stops[t - 1]) == key then 1 else 0)
  }

  /** `level_counters` holds, for each context, how many nodes of it have been visited. */
  lemma {:induction false} CountersCount(nodes: seq<Node>, stops: seq<Stop>, t: nat)
    requires Numbered(nodes) && StopsIn(nodes, stops) && t <= |stops|
    ensures forall key :: key in CheckUpTo(nodes, stops, t).counters <==> CountKey(nodes, stops, t, key) > 0
    ensures forall key :: key in CheckUpTo(nodes, stops, t).counters ==>
      CheckUpTo(nodes, stops, t).counters[key] == CountKey(nodes, stops, t, key)
  {
    if t > 0 {
      CountersCount(nodes, stops, t - 1);
    }
  }

  /**
   * The reference reading of the check: the node at position `t + 1` is expected to carry
   * one more than the number of nodes visited before it in the same context, whether or
   * not those were numbered right.
   */
  function ReferenceErrors(nodes: seq<Node>, stops: seq<Stop>, t: nat): seq<OrderError>
    requires Numbered(nodes) && StopsIn(nodes, stops) && t <= |stops|
  {
    if t == 0 then []
    else
      var s := stops[t - 1];
      ReferenceErrors(nodes, stops, t - 1)
      + NodeErrors(nodes[s.node], s, t, CountKey(nodes, stops, t - 1, KeyOf(nodes, s)) + 1)
  }

  lemma {:induction false} CheckIsReference(nodes: seq<Node>, stops: seq<Stop>, t: nat)
    requires Numbered(nodes) && StopsIn(nodes, stops) && t <= |stops|
    ensures CheckUpTo(nodes, stops, t).errors == ReferenceErrors(nodes, stops, t)
  {
    if t > 0 {
      var s := stops[t - 1];
      var own := NodeErrors(nodes[s.node], s, t, CountKey(nodes, stops, t - 1, KeyOf(nodes, s)) + 1);
      assert CheckUpTo(nodes, stops, t).errors == ReferenceErrors(nodes, stops, t - 1) + own by {
        CheckIsReference(nodes, stops, t - 1);
        CheckStep(nodes, stops, t);
      }
    }
  }

  /** The visit at position `t` expects one more than the earlier visits of its context. */
  lemma CheckStep(nodes: seq<Node>, stops: seq<Stop>, t: nat)
    requires Numbered(nodes) && StopsIn(nodes, stops) && 0 < t <= |stops|
    ensures var s := stops[t - 1];
      CheckUpTo(nodes, stops, t).errors == CheckUpTo(nodes, stops, t - 1).errors
        + NodeErrors(nodes[s.node], s, t, CountKey(nodes, stops, t - 1, KeyOf(nodes, s)) + 1)
  {
    var c := CheckUpTo(nodes, stops, t - 1);
    var key := KeyOf(nodes, stops[t - 1]);
    assert (if key in c.counters then c.counters[key] else 0) == CountKey(nodes, stops, t - 1, key) by {
      CountersCount(nodes, stops, t - 1);
    }
  }

  /** `check_numbering_order` reports exactly what the counting reading says. */
  lemma NumberingErrorsCount(nodes: seq<Node>)
    requires Numbered(nodes)
    ensures NumberingErrors(nodes) == ReferenceErrors(nodes, PreOrder(nodes), |PreOrder(nodes)|)
  {
    CheckIsReference(nodes, PreOrder(nodes), |PreOrder(nodes)|);
  }

  /** One more visit: the counter of its context goes up and its errors are appended. */
  lemma VisitStep(nodes: seq<Node>, stops: seq<Stop>, t: nat, c: Checker)
    requires Numbered(nodes) && StopsIn(nodes, stops) && t < |stops| && c == CheckUpTo(nodes, stops, t)
    ensures var s := stops[t];
      var key := KeyOf(nodes, s);
      var expected := (if key in c.counters then c.counters[key] else 0) + 1;
      CheckUpTo(nodes, stops, t + 1) == Checker(c.counters[key := expected], c.errors + NodeErrors(nodes[s.node], s, t + 1, expected))
  {
  }

  /** `check_numbering_order`: the traversal as a loop over the visits, with `position` and `level_counters`. */
  method CheckNumberingOrder(nodes: seq<Node>) returns (errors: seq<OrderError>)
    requires Numbered(nodes)
    ensures errors == ReferenceErrors(nodes, PreOrder(nodes), |PreOrder(nodes)|)
  {
    var stops := PreOrder(nodes);
    assert StopsIn(nodes, stops);
    var counters: map<Key, nat> := map[];
    errors := [];
    var position := 0;
    while position < |stops|
      invariant position <= |stops|
      invariant Checker(counters, errors) == CheckUpTo(nodes, stops, position)
    {
      var s := stops[position];
      var key := KeyOf(nodes, s);
      var expected := (if key in counters then counters[key] else 0) + 1;
      VisitStep(nodes, stops, position, Checker(counters, errors));
      errors := errors + NodeErrors(nodes[s.node], s, position + 1, expected);
      counters := counters[key := expected];
      position := position + 1;
    }
    NumberingErrorsCount(nodes);
  }

  function DetectFrom(groups: seq<Group>, n: nat): seq<OrderError>
    requires n <= |groups|
  {
    if n == 0 then []
    else
      var nodes := Tree(groups[n - 1]);
      TreeWellFormed(groups[n - 1]);
      DetectFrom(groups, n - 1) + NumberingErrors(nodes)
  }

  /** `detect_bad_order_tree`: the errors of every group's tree, group after group. */
  method DetectBadOrderTree(groups: seq<Group>) returns (errors: seq<OrderError>)
    ensures errors == DetectFrom(groups, |groups|)
  {
    errors := [];
    for i := 0 to |groups|
      invariant errors == DetectFrom(groups, i)
    {
      var nodes := BuildListTree(groups[i]);
      var found := CheckNumberingOrder(nodes);
      NumberingErrorsCount(nodes);
      errors := errors + found;
    }
  }
}
