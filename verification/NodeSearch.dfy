/** The search for the node of a Machine through a paged list. */
module NodeSearch {
  import opened Prelude

  datatype Node = Node(providerID: string, name: string, machineLabel: Option<string>, addresses: seq<string>)

  datatype Machine = Machine(providerID: string, name: string, addresses: seq<string>)

  /** One page and the token of the next; an empty token ends the list. */
  datatype Page = Page(items: seq<Node>, next: string)

  datatype Verdict = AlreadySet | Found(node: Node) | Missing

  type Listing = string -> Result<Page, string>

  predicate SharesAddress(n: Node, m: Machine, loopback: string -> bool) {
    exists a :: a in m.addresses && a in n.addresses && !loopback(a)
  }

  predicate BelongsTo(n: Node, m: Machine, loopback: string -> bool) {
    n.name == m.name || n.machineLabel == Some(m.name) || SharesAddress(n, m, loopback)
  }

  predicate Matches(n: Node, m: Machine, loopback: string -> bool) {
    n.providerID == m.providerID || BelongsTo(n, m, loopback)
  }

  function Answer(n: Node, m: Machine): Verdict { if n.providerID == m.providerID then AlreadySet else Found(n) }

  /** The reference: the verdict at the first matching node of one flat list. */
  function Search(nodes: seq<Node>, m: Machine, loopback: string -> bool): Verdict {
    if nodes == [] then Missing
    else if Matches(nodes[0], m, loopback) then Answer(nodes[0], m)
    else Search(nodes[1..], m, loopback)
  }

  /** It is the verdict at the first match: nothing before it matches. */
  lemma {:induction false} SearchMeaning(nodes: seq<Node>, m: Machine, loopback: string -> bool)
    ensures Search(nodes, m, loopback) == Missing <==> forall i :: 0 <= i < |nodes| ==> !Matches(nodes[i], m, loopback)
    ensures forall i :: 0 <= i < |nodes| && Matches(nodes[i], m, loopback)
                        && (forall j :: 0 <= j < i ==> !Matches(nodes[j], m, loopback)) ==>
              Search(nodes, m, loopback) == Answer(nodes[i], m)
  {
    if nodes == [] {
    } else {
      SearchMeaning(nodes[1..], m, loopback);
      assert forall i :: 0 < i < |nodes| ==> nodes[i] == nodes[1..][i - 1];
    }
  }

  /** The node is the Machine's: by name, by label, or by an address that is no loopback one. */
  ghost predicate Belongs(n: Node, m: Machine, loopback: string -> bool) {
    || n.name == m.name || n.machineLabel == Some(m.name)
    || exists i, j :: 0 <= i < |m.addresses| && 0 <= j < |n.addresses|
                      && m.addresses[i] == n.addresses[j] && !loopback(n.addresses[j])
  }

  lemma MatchesIff(n: Node, m: Machine, loopback: string -> bool)
    ensures Matches(n, m, loopback) <==> n.providerID == m.providerID || Belongs(n, m, loopback)
  {
    if SharesAddress(n, m, loopback) {
      var a :| a in m.addresses && a in n.addresses && !loopback(a);
      var i :| 0 <= i < |m.addresses| && m.addresses[i] == a;
      var j :| 0 <= j < |n.addresses| && n.addresses[j] == a;
    }
  }

  /** The three answers: the identity is already set exactly when a node has it before any other node
      is the Machine's; a node is found exactly when it is the first that is the Machine's and no
      earlier one has the identity. */
  lemma SearchIff(nodes: seq<Node>, m: Machine, loopback: string -> bool, n: Node)
    ensures Search(nodes, m, loopback) == AlreadySet <==>
              exists i :: 0 <= i < |nodes| && nodes[i].providerID == m.providerID
                          && forall j :: 0 <= j < i ==> Passed(nodes[j], m, loopback)
    ensures Search(nodes, m, loopback) == Found(n) <==>
              exists i :: 0 <= i < |nodes| && nodes[i] == n && n.providerID != m.providerID && Belongs(n, m, loopback)
                          && forall j :: 0 <= j < i ==> Passed(nodes[j], m, loopback)
    ensures Search(nodes, m, loopback) == Missing <==>
              forall i :: 0 <= i < |nodes| ==> Passed(nodes[i], m, loopback)
  {
    SearchMeaning(nodes, m, loopback);
    forall i | 0 <= i < |nodes| ensures Matches(nodes[i], m, loopback) <==> !Passed(nodes[i], m, loopback) {
      MatchesIff(nodes[i], m, loopback);
    }
    if !Search(nodes, m, loopback).Missing? {
      var i := FirstMatch(nodes, m, loopback);
      MatchesIff(nodes[i], m, loopback);
    }
  }

  ghost predicate Passed(n: Node, m: Machine, loopback: string -> bool) {
    n.providerID != m.providerID && !Belongs(n, m, loopback)
  }

  lemma {:induction false} FirstMatch(nodes: seq<Node>, m: Machine, loopback: string -> bool) returns (i: nat)
    requires exists k :: 0 <= k < |nodes| && Matches(nodes[k], m, loopback)
    ensures i < |nodes| && Matches(nodes[i], m, loopback) && forall j :: 0 <= j < i ==> !Matches(nodes[j], m, loopback)
    decreases |nodes|
  {
    if Matches(nodes[0], m, loopback) {
      i := 0;
    } else {
      var k :| 0 <= k < |nodes| && Matches(nodes[k], m, loopback);
      assert nodes[1..][k - 1] == nodes[k];
      var i' := FirstMatch(nodes[1..], m, loopback);
      i := i' + 1;
      assert forall j :: 0 < j < |nodes| ==> nodes[j] == nodes[1..][j - 1];
    }
  }

  /** Searching page by page. */
  lemma {:induction false} SearchConcat(a: seq<Node>, b: seq<Node>, m: Machine, loopback: string -> bool)
    ensures Search(a + b, m, loopback) ==
              if Search(a, m, loopback).Missing? then Search(b, m, loopback) else Search(a, m, loopback)
  {
    if a == [] {
      assert a + b == b;
    } else {
      SearchConcat(a[1..], b, m, loopback);
      assert (a + b)[1..] == a[1..] + b;
    }
  }

  // ---- page chains -------------------------------------------------------------------------------

  /** The tokens a listing is followed through: each page names the next, and the chain ends with
      a page that names none or with a call that fails. */
  ghost predicate Chain(list: Listing, tokens: seq<string>) {
    && tokens != []
    && (forall i :: 0 <= i < |tokens| - 1 ==>
          list(tokens[i]).Ok? && list(tokens[i]).value.next != "" && list(tokens[i]).value.next == tokens[i + 1])
    && (list(tokens[|tokens| - 1]).Ok? ==> list(tokens[|tokens| - 1]).value.next == "")
  }

  function Items(list: Listing, token: string): seq<Node> {
    if list(token).Ok? then list(token).value.items else []
  }

  /** All nodes of the pages in order. */
  function Flatten(list: Listing, tokens: seq<string>): seq<Node> {
    if tokens == [] then [] else Items(list, tokens[0]) + Flatten(list, tokens[1..])
  }

  /** What the paged search answers: the verdict on the flat list, and the error of the last call
      only if nothing matched in the pages before it. */
  ghost function Expected(list: Listing, tokens: seq<string>, m: Machine,
      loopback: string -> bool): Result<Verdict, string>
    requires tokens != []
  {
    var flat := Search(Flatten(list, tokens), m, loopback);
    var last := list(tokens[|tokens| - 1]);
    if flat.Missing? && last.Err? then Err(last.error) else Ok(flat)
  }

  lemma ExpectedStep(list: Listing, tokens: seq<string>, m: Machine, loopback: string -> bool)
    requires Chain(list, tokens)
    ensures list(tokens[0]).Err? ==> Expected(list, tokens, m, loopback) == Err(list(tokens[0]).error)
    ensures list(tokens[0]).Ok? ==>
              var page := list(tokens[0]).value;
              var here := Search(page.items, m, loopback);
              && (!here.Missing? ==> Expected(list, tokens, m, loopback) == Ok(here))
              && (here.Missing? && page.next == "" ==> Expected(list, tokens, m, loopback) == Ok(Missing))
              && (page.next != "" ==> |tokens| > 1 && tokens[1] == page.next && Chain(list, tokens[1..]))
              && (here.Missing? && page.next != "" ==>
                    Expected(list, tokens, m, loopback) == Expected(list, tokens[1..], m, loopback))
  {
    SearchConcat(Items(list, tokens[0]), Flatten(list, tokens[1..]), m, loopback);
    if |tokens| == 1 {
      assert Flatten(list, tokens[1..]) == [];
    } else {
      var rest := tokens[1..];
      assert rest[|rest| - 1] == tokens[|tokens| - 1];
      assert forall i :: 0 <= i < |rest| ==> rest[i] == tokens[i + 1];
    }
  }

  /** Page boundaries and empty pages do not matter: two complete listings of the same nodes have
      the same answer. */
  lemma PagingDoesNotMatter(a: Listing, ta: seq<string>, b: Listing, tb: seq<string>, m: Machine,
      loopback: string -> bool)
    requires Chain(a, ta) && Chain(b, tb) && Flatten(a, ta) == Flatten(b, tb)
    requires a(ta[|ta| - 1]).Ok? && b(tb[|tb| - 1]).Ok?
    ensures Expected(a, ta, m, loopback) == Expected(b, tb, m, loopback) == Ok(Search(Flatten(a, ta), m, loopback))
  {
  }

  // ---- the code ------------------------------------------------------------------------------------

  /** The two address loops. */
  method AddressesMeet(n: Node, m: Machine, loopback: string -> bool) returns (yes: bool)
    ensures yes <==> SharesAddress(n, m, loopback)
  {
    for i := 0 to |m.addresses|
      invariant forall k, a :: 0 <= k < i && a == m.addresses[k] && a in n.addresses ==> loopback(a)
    {
      for j := 0 to |n.addresses|
        invariant forall k :: 0 <= k < j && m.addresses[i] == n.addresses[k] ==> loopback(m.addresses[i])
      {
        if m.addresses[i] == n.addresses[j] && !loopback(n.addresses[j]) { return true; }
      }
    }
    yes := false;
  }

  /** One page. */
  method SearchPage(items: seq<Node>, m: Machine, loopback: string -> bool) returns (v: Verdict)
    ensures v == Search(items, m, loopback)
  {
    for i := 0 to |items|
      invariant Search(items, m, loopback) == Search(items[i..], m, loopback)
    {
      var n := items[i];
      assert items[i..][0] == n && items[i..][1..] == items[i + 1..];
      if n.providerID == m.providerID { return AlreadySet; }
      if n.name == m.name { return Found(n); }
      if n.machineLabel.Some? && n.machineLabel.value == m.name { return Found(n); }
      var meet := AddressesMeet(n, m, loopback);
      if meet { return Found(n); }
    }
    assert items[|items|..] == [];
    v := Missing;
  }

  /** `nodeForMachine`, for every listing whose page chain is finite. */
  method NodeForMachine(list: Listing, m: Machine, loopback: string -> bool, ghost tokens: seq<string>)
      returns (r: Result<Verdict, string>)
    requires Chain(list, tokens) && tokens[0] == ""
    ensures r == Expected(list, tokens, m, loopback)
  {
    var token := "";
    ghost var rest := tokens;
    while true
      invariant Chain(list, rest) && rest[0] == token
      invariant Expected(list, rest, m, loopback) == Expected(list, tokens, m, loopback)
      decreases |rest|
    {
      ExpectedStep(list, rest, m, loopback);
      var answer := list(token);
      if answer.Err? { return Err(answer.error); }
      var v := SearchPage(answer.value.items, m, loopback);
      if !v.Missing? { return Ok(v); }
      if answer.value.next == "" { return Ok(Missing); }
      token := answer.value.next;
      rest := rest[1..];
    }
  }

  // ---- what a reconcile does with the answer ----------------------------------------------------------

  /** The node after the reconcile's update: the identity and the name label, set once. */
  function Claimed(n: Node, m: Machine): Node {
    if n.providerID == "" then n.(providerID := m.providerID, machineLabel := Some(m.name)) else n
  }

  /** Setting the identity ends the search for good: the next pass over the updated list answers
      that it is set, and a node that already belongs to another identity is left alone. */
  lemma {:induction false} ClaimIsFound(nodes: seq<Node>, i: nat, m: Machine, loopback: string -> bool)
    requires i < |nodes| && Matches(nodes[i], m, loopback) && forall j :: 0 <= j < i ==> !Matches(nodes[j], m, loopback)
    ensures Search(nodes[i := Claimed(nodes[i], m)], m, loopback) ==
              if nodes[i].providerID in {"", m.providerID} then AlreadySet else Found(nodes[i])
  {
    var after := nodes[i := Claimed(nodes[i], m)];
    SearchMeaning(after, m, loopback);
    assert Matches(after[i], m, loopback);
  }
}
