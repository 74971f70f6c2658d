/**
 * The governance validator of Phase 16 (`bank-main/js/phase16.js`): the board's
 * organisation tree is counted (members, independent members, committees, and whether a
 * Chief Risk Officer is present), the counts give a governance score out of 100 and a
 * verdict, and the structure can be locked once.
 *
 * The independence ratio is rounded to one decimal (`toFixed(1)`) before it enters the score,
 * as the script does.
 */
module Governance {
  import opened JsText

  datatype Node = Node(name: string, role: string, independent: bool, children: seq<Node>)

  const RiskOfficer: string := "Chief Risk Officer"

  /** `governanceStructure` */
  const Structure: Node :=
    Node("Board of Directors", "Governing Body", true, [
      Node("Audit Committee", "Financial Oversight", true, []),
      Node("Risk Committee", "Enterprise Risk Supervision", true, []),
      Node("ESG Committee", "Sustainability Governance", true, []),
      Node("CEO", "Executive Management", false, [
        Node("CFO", "Finance", false, []),
        Node("COO", "Operations", false, []),
        Node("CTO", "Technology", false, []),
        Node(RiskOfficer, "Independent Risk Control", true, [])
      ])
    ])

  /** The result record of `countGovernance`. */
  datatype Counts = Counts(total: int, independent: int, committees: int, hasRiskControl: bool)

  const NoCounts: Counts := Counts(0, 0, 0, false)

  /** What one node contributes by itself. */
  function Own(n: Node): Counts {
    Counts(1, if n.independent then 1 else 0, if Contains(n.name, "Committee") then 1 else 0, n.name == RiskOfficer)
  }

  function Add(a: Counts, b: Counts): Counts {
    Counts(a.total + b.total, a.independent + b.independent, a.committees + b.committees,
           a.hasRiskControl || b.hasRiskControl)
  }

  /** `countGovernance(node)` as a recursive definition over the tree. */
  function Count(n: Node): Counts
    decreases n, 0
  {
    Add(Own(n), CountFirst(n.children, |n.children|))
  }

  /** The counts of the first `i` nodes of `ns`, each with its subtree. */
  function CountFirst(ns: seq<Node>, i: nat): Counts
    requires i <= |ns|
    decreases ns, i
  {
    if i == 0 then NoCounts else Add(CountFirst(ns, i - 1), Count(ns[i - 1]))
  }

  // ---------------------------------------------------------------------------------------
  // A reference: the list of all nodes

  /** Every node of the tree, parent before children. */
  function Flatten(n: Node): seq<Node>
    decreases n, 0
  {
    [n] + FlattenFirst(n.children, |n.children|)
  }

  function FlattenFirst(ns: seq<Node>, i: nat): seq<Node>
    requires i <= |ns|
    decreases ns, i
  {
    if i == 0 then [] else FlattenFirst(ns, i - 1) + Flatten(ns[i - 1])
  }

  /** The counts of the first `i` nodes of a list, each counted on its own. */
  function FlatCounts(s: seq<Node>, i: nat): Counts
    requires i <= |s|
  {
    if i == 0 then NoCounts else Add(FlatCounts(s, i - 1), Own(s[i - 1]))
  }

  /** What the flat counts mean: the length, two bounded tallies and a search for the risk officer. */
  lemma {:induction false} FlatCountsMeaning(s: seq<Node>, i: nat)
    requires i <= |s|
    ensures var c := FlatCounts(s, i);
            && c.total == i
            && 0 <= c.independent <= c.total && 0 <= c.committees <= c.total
            && (c.hasRiskControl <==> exists k :: 0 <= k < i && s[k].name == RiskOfficer)
  {
    if i > 0 {
      FlatCountsMeaning(s, i - 1);
    }
  }

  lemma {:induction false} FlatCountsPrefix(a: seq<Node>, b: seq<Node>, i: nat)
    requires i <= |a|
    ensures FlatCounts(a + b, i) == FlatCounts(a, i)
  {
    if i > 0 {
      FlatCountsPrefix(a, b, i - 1);
      assert (a + b)[i - 1] == a[i - 1];
    }
  }

  lemma {:induction false} FlatCountsAppend(a: seq<Node>, b: seq<Node>, j: nat)
    requires j <= |b|
    ensures FlatCounts(a + b, |a| + j) == Add(FlatCounts(a, |a|), FlatCounts(b, j))
  {
    var fa := FlatCounts(a, |a|);
    if j == 0 {
      FlatCountsPrefix(a, b, |a|);
      assert FlatCounts(b, 0) == NoCounts;
      assert Add(fa, NoCounts) == fa;
    } else {
      FlatCountsAppend(a, b, j - 1);
      var x := Own(b[j - 1]);
      var fb := FlatCounts(b, j - 1);
      assert (a + b)[|a| + j - 1] == b[j - 1];
      assert FlatCounts(a + b, |a| + j) == Add(Add(fa, fb), x);
      AddAssociative(fa, fb, x);
    }
  }

  lemma AddAssociative(p: Counts, q: Counts, r: Counts)
    ensures Add(Add(p, q), r) == Add(p, Add(q, r))
  {
  }

  /** Counting the tree is counting the list of its nodes. */
  lemma {:induction false} CountIsFlatCount(n: Node)
    ensures Count(n) == FlatCounts(Flatten(n), |Flatten(n)|)
    decreases n, 0
  {
    var rest := FlattenFirst(n.children, |n.children|);
    CountFirstIsFlatCount(n.children, |n.children|);
    FlatCountsAppend([n], rest, |rest|);
  }

  lemma {:induction false} CountFirstIsFlatCount(ns: seq<Node>, i: nat)
    requires i <= |ns|
    ensures CountFirst(ns, i) == FlatCounts(FlattenFirst(ns, i), |FlattenFirst(ns, i)|)
    decreases ns, i
  {
    if i > 0 {
      var front, last := FlattenFirst(ns, i - 1), Flatten(ns[i - 1]);
      CountFirstIsFlatCount(ns, i - 1);
      CountIsFlatCount(ns[i - 1]);
      FlatCountsAppend(front, last, |last|);
    }
  }

  /**
   * `total` is the number of nodes, `independent` and `committees` never exceed it, and
   * `hasRiskControl` holds exactly when some node is named "Chief Risk Officer".
   */
  lemma CountMeaning(n: Node)
    ensures var c := Count(n); var s := Flatten(n);
            && c.total == |s|
            && 0 <= c.independent <= c.total && 0 <= c.committees <= c.total
            && (c.hasRiskControl <==> exists i :: 0 <= i < |s| && s[i].name == RiskOfficer)
  {
    CountIsFlatCount(n);
    FlatCountsMeaning(Flatten(n), |Flatten(n)|);
  }

  /** The recursive walk of `countGovernance`, with its accumulators and its loop over the children. */
  method CountGovernance(n: Node) returns (c: Counts)
    ensures c == Count(n)
    decreases n
  {
    var own := Own(n);
    var total, independent, committees, hasRiskControl := own.total, own.independent, own.committees, own.hasRiskControl;
    var i := 0;
    ghost var sofar := NoCounts;
    while i < |n.children|
      invariant 0 <= i <= |n.children|
      invariant sofar == CountFirst(n.children, i)
      invariant total == own.total + sofar.total && independent == own.independent + sofar.independent
      invariant committees == own.committees + sofar.committees
      invariant hasRiskControl == (own.hasRiskControl || sofar.hasRiskControl)
    {
      var result := CountGovernance(n.children[i]);
      sofar := Add(sofar, result);
      total := total + result.total;
      independent := independent + result.independent;
      committees := committees + result.committees;
      hasRiskControl := hasRiskControl || result.hasRiskControl;
      i := i + 1;
    }
    c := Counts(total, independent, committees, hasRiskControl);
  }

  // ---------------------------------------------------------------------------------------
  // Score and verdict

  /** The independence percentage, rounded to one decimal as `toFixed(1)` renders it. */
  function IndependenceRatio(c: Counts): (r: real)
    requires 0 <= c.independent <= c.total && c.total > 0
    ensures 0.0 <= r <= 100.0
  {
    var exact := c.independent as real / c.total as real * 100.0;
    assert 0.0 <= exact * DecimalScale(1) <= 1000.0 by {
      assert c.independent as real <= c.total as real;
      assert DecimalScale(1) == 10.0;
    }
    ToFixedBounds(exact, 1, 0, 1000);
    ToFixed(exact, 1)
  }

  /**
   * `governanceScore`: half of the (rounded) independence percentage, plus 30 for three or
   * more committees (else 10), plus 20 when a risk officer is present.
   */
  function Score(c: Counts): (score: real)
    requires 0 <= c.independent <= c.total && c.total > 0
    ensures 10.0 <= score <= 100.0
  {
    IndependenceRatio(c) / 100.0 * 50.0 + (if c.committees >= 3 then 30.0 else 10.0) + (if c.hasRiskControl then 20.0 else 0.0)
  }

  datatype Verdict = Strong | Adequate | HighRisk

  function VerdictOf(score: real): (v: Verdict)
    ensures v == Strong <==> score > 80.0
    ensures v == Adequate <==> 60.0 < score <= 80.0
    ensures v == HighRisk <==> score <= 60.0
  {
    if score > 80.0 then Strong else if score > 60.0 then Adequate else HighRisk
  }

  /** Without a risk officer and with fewer than three committees the verdict is always HIGH RISK. */
  lemma WeakStructureIsHighRisk(c: Counts)
    requires 0 <= c.independent <= c.total && c.total > 0
    requires !c.hasRiskControl && c.committees < 3
    ensures VerdictOf(Score(c)) == HighRisk
  {
    assert IndependenceRatio(c) <= 100.0;
  }

  /** A node with four children counts itself and each child. */
  lemma FourChildren(n: Node)
    requires |n.children| == 4
    ensures Count(n) == Add(Own(n), Add(Add(Add(Count(n.children[0]), Count(n.children[1])),
                                            Count(n.children[2])), Count(n.children[3])))
  {
    var ks := n.children;
    assert CountFirst(ks, 1) == Count(ks[0]);
    assert CountFirst(ks, 2) == Add(CountFirst(ks, 1), Count(ks[1]));
    assert CountFirst(ks, 3) == Add(CountFirst(ks, 2), Count(ks[2]));
    assert CountFirst(ks, 4) == Add(CountFirst(ks, 3), Count(ks[3]));
  }

  /** What a node is by itself: independent or not, a committee or not, the risk officer or not. */
  ghost predicate Member(n: Node, independent: bool, committee: bool, risk: bool) {
    n.independent == independent && Contains(n.name, "Committee") == committee && (n.name == RiskOfficer) == risk
  }

  /** A member without children. */
  ghost predicate Leaf(n: Node, independent: bool, committee: bool, risk: bool) {
    n.children == [] && Member(n, independent, committee, risk)
  }

  lemma LeafCounts(n: Node, independent: bool, committee: bool, risk: bool)
    requires Leaf(n, independent, committee, risk)
    ensures Count(n) == Counts(1, if independent then 1 else 0, if committee then 1 else 0, risk)
  {
  }

  /**
   * Any tree shaped like the shipped one counts nine members, five independent, three
   * committees and a risk officer: an independent board over three independent committees
   * and a chief executive, who is over three executives and the risk officer.
   */
  lemma ShippedShapeCounts(board: Node)
    requires |board.children| == 4 && Member(board, true, false, false)
    requires Leaf(board.children[0], true, true, false)
    requires Leaf(board.children[1], true, true, false)
    requires Leaf(board.children[2], true, true, false)
    requires |board.children[3].children| == 4 && Member(board.children[3], false, false, false)
    requires Leaf(board.children[3].children[0], false, false, false)
    requires Leaf(board.children[3].children[1], false, false, false)
    requires Leaf(board.children[3].children[2], false, false, false)
    requires Leaf(board.children[3].children[3], true, false, true)
    ensures Count(board) == Counts(9, 5, 3, true)
  {
    ExecutiveShapeCounts(board.children[3]);
    LeafCounts(board.children[0], true, true, false);
    LeafCounts(board.children[1], true, true, false);
    LeafCounts(board.children[2], true, true, false);
    FourChildren(board);
  }

  /** The chief executive over three executives and the risk officer. */
  lemma ExecutiveShapeCounts(ceo: Node)
    requires |ceo.children| == 4 && Member(ceo, false, false, false)
    requires Leaf(ceo.children[0], false, false, false)
    requires Leaf(ceo.children[1], false, false, false)
    requires Leaf(ceo.children[2], false, false, false)
    requires Leaf(ceo.children[3], true, false, true)
    ensures Count(ceo) == Counts(5, 1, 0, true)
  {
    LeafCounts(ceo.children[0], false, false, false);
    LeafCounts(ceo.children[1], false, false, false);
    LeafCounts(ceo.children[2], false, false, false);
    LeafCounts(ceo.children[3], true, false, true);
    FourChildren(ceo);
  }

  /** A name without the letter `m` is not a committee's. */
  lemma NoCommitteeWithoutM(name: string)
    requires 'm' !in name
    ensures !Contains(name, "Committee")
  {
    MissingChar(name, "Committee", 2);
  }

  /** Not a committee and not the risk officer: no `m`, and shorter than the officer's 18-character title. */
  lemma PlainName(name: string)
    requires 'm' !in name && |name| < 18
    ensures !Contains(name, "Committee") && name != RiskOfficer
  {
    NoCommitteeWithoutM(name);
    assert |RiskOfficer| == 18;
  }

  /** A committee's name: some words followed by "Committee". */
  lemma CommitteeName(name: string, prefix: string)
    requires name == prefix + "Committee"
    ensures Contains(name, "Committee") && name != RiskOfficer
  {
    ContainsCommittee(prefix);
    assert name[|name| - 1] == 'e';
    assert RiskOfficer[|RiskOfficer| - 1] == 'r';
  }

  lemma BoardFacts()
    ensures |Structure.children| == 4 && Member(Structure, true, false, false)
  {
    NoCommitteeWithoutM(Structure.name);
  }

  lemma AuditFacts()
    ensures Leaf(Structure.children[0], true, true, false)
  {
    CommitteeName(Structure.children[0].name, "Audit ");
  }

  lemma RiskFacts()
    ensures Leaf(Structure.children[1], true, true, false)
  {
    CommitteeName(Structure.children[1].name, "Risk ");
  }

  lemma EsgFacts()
    ensures Leaf(Structure.children[2], true, true, false)
  {
    CommitteeName(Structure.children[2].name, "ESG ");
  }

  lemma CeoFacts()
    ensures |Structure.children[3].children| == 4 && Member(Structure.children[3], false, false, false)
  {
    PlainName(Structure.children[3].name);
  }

  lemma CfoFacts()
    ensures Leaf(Structure.children[3].children[0], false, false, false)
  {
    PlainName(Structure.children[3].children[0].name);
  }

  lemma CooFacts()
    ensures Leaf(Structure.children[3].children[1], false, false, false)
  {
    PlainName(Structure.children[3].children[1].name);
  }

  lemma CtoFacts()
    ensures Leaf(Structure.children[3].children[2], false, false, false)
  {
    PlainName(Structure.children[3].children[2].name);
  }

  lemma CroFacts()
    ensures Leaf(Structure.children[3].children[3], true, false, true)
  {
    NoCommitteeWithoutM(RiskOfficer);
  }

  /** Nine members of whom five independent, three committees and a risk officer score 77.8: ADEQUATE. */
  lemma ShippedVerdict()
    ensures VerdictOf(Score(Counts(9, 5, 3, true))) == Adequate
  {
    var c := Counts(9, 5, 3, true);
    assert DecimalScale(1) == 10.0;
    assert Round(5.0 / 9.0 * 100.0 * 10.0) == 556;
    assert IndependenceRatio(c) == 55.6;
    assert Score(c) == 77.8;
  }

  /** The shipped structure: nine members, five independent, three committees, a risk officer; ADEQUATE. */
  lemma ShippedStructure()
    ensures Count(Structure) == Counts(9, 5, 3, true)
    ensures VerdictOf(Score(Count(Structure))) == Adequate
  {
    BoardFacts();
    AuditFacts();
    RiskFacts();
    EsgFacts();
    CeoFacts();
    CfoFacts();
    CooFacts();
    CtoFacts();
    CroFacts();
    ShippedShapeCounts(Structure);
    ShippedVerdict();
  }

  lemma ContainsCommittee(prefix: string)
    ensures Contains(prefix + "Committee", "Committee")
  {
    var s := prefix + "Committee";
    assert OccursAt(s, "Committee", |prefix|);
    ContainsIffOccurs(s, "Committee");
  }

  // ---------------------------------------------------------------------------------------
  // The lock

  class StructureLock {
    var locked: bool

    constructor ()
      ensures !locked
    {
      locked := false;
    }

    /** `lockStructure()`: returns whether this call did the locking. */
    method LockStructure() returns (changed: bool)
      modifies this
      ensures locked
      ensures changed <==> !old(locked)
    {
      if locked {
        return false;
      }
      locked := true;
      return true;
    }
  }
}
