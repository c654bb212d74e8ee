/** One-pass delimiter pairing of the bundle audit, and the innermost enclosing braces. */
module TokenPairs {
  import opened Options

  datatype TokenKind = Identifier | Punctuation | StringLiteral

  datatype BundleToken = BundleToken(kind: TokenKind, value: string)

  datatype Delimiter = Paren | Brace | Bracket

  /** What the scans read off a token: its text alone decides, whatever its kind. */
  datatype Role = Opener(delimiter: Delimiter) | Closer(delimiter: Delimiter) | Other

  function RoleOf(value: string): Role {
    if value == "(" then Opener(Paren)
    else if value == "{" then Opener(Brace)
    else if value == "[" then Opener(Bracket)
    else if value == ")" then Closer(Paren)
    else if value == "}" then Closer(Brace)
    else if value == "]" then Closer(Bracket)
    else Other
  }

  function Roles(tokens: seq<BundleToken>): (roles: seq<Role>)
    ensures |roles| == |tokens| && forall i :: 0 <= i < |tokens| ==> roles[i] == RoleOf(tokens[i].value)
  {
    seq(|tokens|, i requires 0 <= i < |tokens| => RoleOf(tokens[i].value))
  }

  /** The pairing scan: indices of pending openers, and the pairs found so far in both directions. */
  datatype Scan = Scan(stack: seq<int>, pairs: map<int, int>)

  /** The top of the stack is an opener of the closer's kind. */
  predicate TopMatches(roles: seq<Role>, stack: seq<int>, closer: Role) {
    && closer.Closer? && stack != [] && 0 <= stack[|stack|-1] < |roles|
    && roles[stack[|stack|-1]] == Opener(closer.delimiter)
  }

  function ScanRole(roles: seq<Role>, s: Scan, index: nat): Scan
    requires index < |roles|
  {
    if roles[index].Opener? then Scan(s.stack + [index], s.pairs)
    else if TopMatches(roles, s.stack, roles[index]) then
      var opening := s.stack[|s.stack|-1];
      Scan(s.stack[..|s.stack|-1], s.pairs[opening := index][index := opening])
    else s
  }

  function ScanFrom(roles: seq<Role>, s: Scan, index: nat): Scan
    requires index <= |roles|
    decreases |roles| - index
  {
    if index == |roles| then s else ScanFrom(roles, ScanRole(roles, s, index), index + 1)
  }

  function Pairs(roles: seq<Role>): map<int, int> {
    ScanFrom(roles, Scan([], map[]), 0).pairs
  }

  method BuildTokenPairs(tokens: seq<BundleToken>) returns (pairs: map<int, int>)
    ensures pairs == Pairs(Roles(tokens))
  {
    ghost var roles := Roles(tokens);
    pairs := map[];
    var stack: seq<int> := [];
    for index := 0 to |tokens|
      invariant forall k :: 0 <= k < |stack| ==> 0 <= stack[k] < |tokens|
      invariant ScanFrom(roles, Scan(stack, pairs), index).pairs == Pairs(roles)
    {
      var role := RoleOf(tokens[index].value);
      if role.Opener? {
        stack := stack + [index];
      } else if role.Closer? && stack != [] && RoleOf(tokens[stack[|stack|-1]].value) == Opener(role.delimiter) {
        var opening := stack[|stack|-1];
        stack := stack[..|stack|-1];
        pairs := pairs[opening := index];
        pairs := pairs[index := opening];
      }
    }
  }

  // ----- what holds on every token sequence, balanced or not -----

  /** Pairing is symmetric and joins an opener with a later closer of its own kind. */
  ghost predicate Matched(roles: seq<Role>, pairs: map<int, int>) {
    forall i :: i in pairs ==>
      && 0 <= i < |roles| && pairs[i] in pairs && pairs[pairs[i]] == i && i != pairs[i]
      && (i < pairs[i] ==> pairs[i] < |roles| && roles[i].Opener? && roles[pairs[i]] == Closer(roles[i].delimiter))
  }

  ghost predicate NonCrossing(pairs: map<int, int>) {
    forall i, j :: i in pairs && j in pairs && i < j < pairs[i] ==> i < pairs[j] < pairs[i]
  }

  /** Every opener strictly inside a pair has been paired (and so, by NonCrossing, inside it). */
  ghost predicate FilledInside(roles: seq<Role>, pairs: map<int, int>) {
    forall i, j :: i in pairs && 0 <= i < j < pairs[i] && j < |roles| && roles[j].Opener? ==> j in pairs
  }

  ghost predicate Pending(roles: seq<Role>, s: Scan, index: nat) {
    && index <= |roles|
    && (forall k :: 0 <= k < |s.stack| ==>
         0 <= s.stack[k] < index && s.stack[k] !in s.pairs && roles[s.stack[k]].Opener?)
    && (forall j, k :: 0 <= j < k < |s.stack| ==> s.stack[j] < s.stack[k])
    && (forall j :: 0 <= j < index && roles[j].Opener? ==> j in s.pairs || j in s.stack)
    && (forall i, k :: i in s.pairs && 0 <= k < |s.stack| && i < s.stack[k] ==> s.pairs[i] < s.stack[k])
  }

  ghost predicate ScanInv(roles: seq<Role>, s: Scan, index: nat) {
    && Pending(roles, s, index)
    && Matched(roles, s.pairs) && NonCrossing(s.pairs)
    && (forall i :: i in s.pairs ==> i < index)
  }

  lemma PushInv(roles: seq<Role>, s: Scan, index: nat)
    requires index < |roles| && ScanInv(roles, s, index) && roles[index].Opener?
    ensures ScanInv(roles, Scan(s.stack + [index], s.pairs), index + 1)
  {
    var out := Scan(s.stack + [index], s.pairs);
    forall j | 0 <= j < index + 1 && roles[j].Opener? ensures j in out.pairs || j in out.stack {
      if j == index { assert out.stack[|s.stack|] == j; }
    }
    assert forall i :: i in s.pairs ==> s.pairs[i] in s.pairs;
  }

  lemma MatchAccounts(roles: seq<Role>, s: Scan, index: nat, out: Scan)
    requires index < |roles| && Pending(roles, s, index)
    requires TopMatches(roles, s.stack, roles[index]) && out == ScanRole(roles, s, index)
    ensures forall j :: 0 <= j < index + 1 && roles[j].Opener? ==> j in out.pairs || j in out.stack
  {
    forall j | 0 <= j < index + 1 && roles[j].Opener? ensures j in out.pairs || j in out.stack {
      if j !in s.pairs {
        var k :| 0 <= k < |s.stack| && s.stack[k] == j;
        if k < |s.stack| - 1 { assert out.stack[k] == j; }
      }
    }
  }

  lemma MatchPending(roles: seq<Role>, s: Scan, index: nat)
    requires index < |roles| && ScanInv(roles, s, index)
    requires TopMatches(roles, s.stack, roles[index])
    ensures Pending(roles, ScanRole(roles, s, index), index + 1)
  {
    MatchAccounts(roles, s, index, ScanRole(roles, s, index));
  }

  ghost predicate Addable(roles: seq<Role>, pairs: map<int, int>, opening: int, index: nat) {
    && 0 <= opening < index < |roles| && opening !in pairs
    && (forall i :: i in pairs ==> i < index)
    && (forall i :: i in pairs && i < opening ==> pairs[i] < opening)
    && roles[opening].Opener? && roles[index] == Closer(roles[opening].delimiter)
  }

  lemma AddedMatches(roles: seq<Role>, pairs: map<int, int>, opening: int, index: nat)
    requires Matched(roles, pairs) && Addable(roles, pairs, opening, index)
    ensures Matched(roles, pairs[opening := index][index := opening])
  {
    var out := pairs[opening := index][index := opening];
    assert forall i :: i in pairs ==> pairs[i] in pairs && out[i] == pairs[i];
  }

  lemma AddedDoesNotCross(roles: seq<Role>, pairs: map<int, int>, opening: int, index: nat)
    requires Matched(roles, pairs) && NonCrossing(pairs) && Addable(roles, pairs, opening, index)
    ensures NonCrossing(pairs[opening := index][index := opening])
  {
    var out := pairs[opening := index][index := opening];
    assert forall i :: i in pairs ==> pairs[i] in pairs && out[i] == pairs[i];
    forall i, j | i in out && j in out && i < j < out[i] ensures i < out[j] < out[i] {
      if i == opening { assert j in pairs && pairs[pairs[j]] == j; }
    }
  }

  lemma MatchInv(roles: seq<Role>, s: Scan, index: nat)
    requires index < |roles| && ScanInv(roles, s, index)
    requires TopMatches(roles, s.stack, roles[index])
    ensures ScanInv(roles, ScanRole(roles, s, index), index + 1)
  {
    MatchPending(roles, s, index);
    AddedMatches(roles, s.pairs, s.stack[|s.stack|-1], index);
    AddedDoesNotCross(roles, s.pairs, s.stack[|s.stack|-1], index);
  }

  lemma ScanRoleInv(roles: seq<Role>, s: Scan, index: nat)
    requires index < |roles| && ScanInv(roles, s, index)
    ensures ScanInv(roles, ScanRole(roles, s, index), index + 1)
  {
    if roles[index].Opener? {
      PushInv(roles, s, index);
    } else if TopMatches(roles, s.stack, roles[index]) {
      MatchInv(roles, s, index);
    }
  }

  lemma {:induction false} ScanFromInv(roles: seq<Role>, s: Scan, index: nat)
    requires ScanInv(roles, s, index)
    ensures ScanInv(roles, ScanFrom(roles, s, index), |roles|)
    decreases |roles| - index
  {
    if index < |roles| {
      ScanRoleInv(roles, s, index);
      ScanFromInv(roles, ScanRole(roles, s, index), index + 1);
    }
  }

  lemma PairsAreNested(roles: seq<Role>)
    ensures Matched(roles, Pairs(roles)) && NonCrossing(Pairs(roles)) && FilledInside(roles, Pairs(roles))
  {
    ScanFromInv(roles, Scan([], map[]), 0);
    var out := ScanFrom(roles, Scan([], map[]), 0);
    forall i, j | i in out.pairs && 0 <= i < j < out.pairs[i] && j < |roles| && roles[j].Opener?
      ensures j in out.pairs
    {
      assert forall k :: 0 <= k < |out.stack| ==> out.stack[k] != j;
    }
  }

  // ----- the bracket grammar -----

  /** Well-bracketed input: tokens that are no delimiters, and groups of one kind. */
  datatype Forest =
    | Empty
    | Plain(rest: Forest)
    | Group(delimiter: Delimiter, inner: Forest, rest: Forest)

  function Size(f: Forest): nat {
    match f
    case Empty => 0
    case Plain(rest) => 1 + Size(rest)
    case Group(_, inner, rest) => 2 + Size(inner) + Size(rest)
  }

  /** The pairs of a forest whose first token stands at index `at`. */
  function PairsOf(f: Forest, at: nat): map<int, int> {
    match f
    case Empty => map[]
    case Plain(rest) => PairsOf(rest, at + 1)
    case Group(_, inner, rest) =>
      var end := at + 1 + Size(inner);
      PairsOf(inner, at + 1)[at := end][end := at] + PairsOf(rest, end + 1)
  }

  lemma {:induction false} PairsOfRange(f: Forest, at: nat)
    ensures forall i :: i in PairsOf(f, at) ==> at <= i < at + Size(f) && at <= PairsOf(f, at)[i] < at + Size(f)
  {
    match f
    case Empty =>
    case Plain(rest) => PairsOfRange(rest, at + 1);
    case Group(_, inner, rest) =>
      PairsOfRange(inner, at + 1);
      PairsOfRange(rest, at + 2 + Size(inner));
  }

  /** The roles of `f` stand in `roles` from index `at` on. */
  ghost predicate StandsAt(roles: seq<Role>, f: Forest, at: nat) {
    && at + Size(f) <= |roles|
    && match f
       case Empty => true
       case Plain(rest) => roles[at] == Other && StandsAt(roles, rest, at + 1)
       case Group(d, inner, rest) =>
         var end := at + 1 + Size(inner);
         && roles[at] == Opener(d) && StandsAt(roles, inner, at + 1)
         && roles[end] == Closer(d) && StandsAt(roles, rest, end + 1)
  }

  /** The whole sequence is well bracketed and `f` is its bracket structure. */
  ghost predicate Parses(roles: seq<Role>, f: Forest) {
    |roles| == Size(f) && StandsAt(roles, f, 0)
  }

  lemma ScanPush(roles: seq<Role>, s: Scan, index: nat)
    requires index < |roles| && roles[index].Opener?
    ensures ScanFrom(roles, s, index) == ScanFrom(roles, Scan(s.stack + [index], s.pairs), index + 1)
  {
  }

  lemma ScanMatch(roles: seq<Role>, stack: seq<int>, opening: int, pairs: map<int, int>, index: nat)
    requires 0 <= opening < index < |roles|
    requires roles[index].Closer? && roles[opening] == Opener(roles[index].delimiter)
    ensures ScanFrom(roles, Scan(stack + [opening], pairs), index)
         == ScanFrom(roles, Scan(stack, pairs[opening := index][index := opening]), index + 1)
  {
    var s := Scan(stack + [opening], pairs);
    assert s.stack[..|s.stack|-1] == stack;
  }

  lemma GroupUnion(pairs: map<int, int>, inner: map<int, int>, rest: map<int, int>, at: int, end: int)
    ensures (pairs + inner)[at := end][end := at] + rest == pairs + (inner[at := end][end := at] + rest)
  {
  }

  lemma ScanGroup(roles: seq<Role>, s: Scan, at: nat, end: nat, to: nat, inner: map<int, int>, rest: map<int, int>)
    requires at < end < to + 1 && to <= |roles| && end < |roles|
    requires roles[at].Opener? && roles[end] == Closer(roles[at].delimiter)
    requires ScanFrom(roles, Scan(s.stack + [at], s.pairs), at + 1)
          == ScanFrom(roles, Scan(s.stack + [at], s.pairs + inner), end)
    requires var closed := (s.pairs + inner)[at := end][end := at];
      ScanFrom(roles, Scan(s.stack, closed), end + 1) == ScanFrom(roles, Scan(s.stack, closed + rest), to)
    ensures ScanFrom(roles, s, at)
         == ScanFrom(roles, Scan(s.stack, s.pairs + (inner[at := end][end := at] + rest)), to)
  {
    ScanPush(roles, s, at);
    ScanMatch(roles, s.stack, at, s.pairs + inner, end);
    GroupUnion(s.pairs, inner, rest, at, end);
  }

  /** Scanning the stretch `from .. to` with this scan restores the stack and adds `found`. */
  ghost predicate Adds(roles: seq<Role>, s: Scan, from: nat, to: nat, found: map<int, int>) {
    from <= to <= |roles| && ScanFrom(roles, s, from) == ScanFrom(roles, Scan(s.stack, s.pairs + found), to)
  }

  lemma AddsGroup(roles: seq<Role>, s: Scan, at: nat, end: nat, to: nat, inner: map<int, int>, rest: map<int, int>,
                  pushed: Scan, popped: Scan)
    requires at < end < to <= |roles| && roles[at].Opener? && roles[end] == Closer(roles[at].delimiter)
    requires pushed == Scan(s.stack + [at], s.pairs)
    requires popped == Scan(s.stack, (s.pairs + inner)[at := end][end := at])
    requires Adds(roles, pushed, at + 1, end, inner) && Adds(roles, popped, end + 1, to, rest)
    ensures Adds(roles, s, at, to, inner[at := end][end := at] + rest)
  {
    ScanGroup(roles, s, at, end, to, inner, rest);
  }

  lemma AddsPlain(roles: seq<Role>, s: Scan, at: nat, to: nat, found: map<int, int>)
    requires at < to <= |roles| && roles[at] == Other && Adds(roles, s, at + 1, to, found)
    ensures Adds(roles, s, at, to, found)
  {
    assert ScanFrom(roles, s, at) == ScanFrom(roles, s, at + 1);
  }

  lemma AddsNothing(roles: seq<Role>, s: Scan, at: nat)
    requires at <= |roles|
    ensures Adds(roles, s, at, at, map[])
  {
    assert s.pairs + map[] == s.pairs;
  }

  /** Scanning over a balanced stretch restores the stack and adds exactly the grammar's pairs. */
  lemma {:induction false} ScanForest(roles: seq<Role>, f: Forest, at: nat, s: Scan, to: nat, found: map<int, int>)
    requires StandsAt(roles, f, at) && to == at + Size(f) && found == PairsOf(f, at)
    ensures Adds(roles, s, at, to, found)
  {
    match f
    case Empty =>
      AddsNothing(roles, s, at);
    case Plain(rest) =>
      ScanForest(roles, rest, at + 1, s, to, found);
      AddsPlain(roles, s, at, to, found);
    case Group(_, inner, rest) =>
      var end := at + 1 + Size(inner);
      var first, second := PairsOf(inner, at + 1), PairsOf(rest, end + 1);
      var pushed := Scan(s.stack + [at], s.pairs);
      var popped := Scan(s.stack, (s.pairs + first)[at := end][end := at]);
      ScanForest(roles, inner, at + 1, pushed, end, first);
      ScanForest(roles, rest, end + 1, popped, to, second);
      AddsGroup(roles, s, at, end, to, first, second, pushed, popped);
  }

  /** On well-bracketed input the pairing is the one of the recursive bracket grammar. */
  lemma PairsFollowGrammar(roles: seq<Role>, f: Forest)
    requires Parses(roles, f)
    ensures Pairs(roles) == PairsOf(f, 0)
  {
    ScanForest(roles, f, 0, Scan([], map[]), |roles|, PairsOf(f, 0));
    assert map[] + PairsOf(f, 0) == PairsOf(f, 0);
  }

  // ----- enclosing braces -----

  function Top(stack: seq<int>): Option<int> {
    if stack == [] then None else Some(stack[|stack|-1])
  }

  function Popped(role: Role, stack: seq<int>): seq<int> {
    if role == Closer(Brace) && stack != [] then stack[..|stack|-1] else stack
  }

  function Pushed(role: Role, stack: seq<int>, index: nat): seq<int> {
    if role == Opener(Brace) then stack + [index] else stack
  }

  /** The stack of open braces after the tokens `from .. to`. */
  function StackAfter(roles: seq<Role>, stack: seq<int>, from: nat, to: nat): seq<int>
    requires from <= to <= |roles|
    decreases |roles| - from
  {
    if from == to then stack
    else StackAfter(roles, Pushed(roles[from], Popped(roles[from], stack), from), from + 1, to)
  }

  lemma {:induction false} StackSplits(roles: seq<Role>, stack: seq<int>, from: nat, mid: nat, to: nat)
    requires from <= mid <= to <= |roles|
    ensures StackAfter(roles, stack, from, to) == StackAfter(roles, StackAfter(roles, stack, from, mid), mid, to)
    decreases |roles| - from
  {
    if from < mid {
      StackSplits(roles, Pushed(roles[from], Popped(roles[from], stack), from), from + 1, mid, to);
    }
  }

  /** The answer at `index` of a scan that entered `from` with the given stack. */
  function EnclosingAt(roles: seq<Role>, stack: seq<int>, from: nat, index: nat): Option<int>
    requires from <= index < |roles|
  {
    Top(Popped(roles[index], StackAfter(roles, stack, from, index)))
  }

  method CollectEnclosingObjectOpens(tokens: seq<BundleToken>) returns (enclosing: seq<Option<int>>)
    ensures |enclosing| == |tokens|
    ensures forall i :: 0 <= i < |tokens| ==> enclosing[i] == EnclosingAt(Roles(tokens), [], 0, i)
  {
    ghost var roles := Roles(tokens);
    enclosing := [];
    var stack: seq<int> := [];
    for index := 0 to |tokens|
      invariant |enclosing| == index && stack == StackAfter(roles, [], 0, index)
      invariant forall i :: 0 <= i < index ==> enclosing[i] == EnclosingAt(roles, [], 0, i)
    {
      StackSplits(roles, [], 0, index, index + 1);
      var role := RoleOf(tokens[index].value);
      if role == Closer(Brace) && stack != [] { stack := stack[..|stack|-1]; }
      enclosing := enclosing + [Top(stack)];
      if role == Opener(Brace) { stack := stack + [index]; }
    }
  }

  lemma StackStep(roles: seq<Role>, stack: seq<int>, from: nat, to: nat)
    requires from < to <= |roles|
    ensures StackAfter(roles, stack, from, to)
         == StackAfter(roles, Pushed(roles[from], Popped(roles[from], stack), from), from + 1, to)
  {
  }

  /** A group whose inside restores the stack restores it as a whole. */
  lemma StackGroup(roles: seq<Role>, stack: seq<int>, at: nat, end: nat, to: nat)
    requires at < end < to <= |roles| && roles[at].Opener? && roles[end] == Closer(roles[at].delimiter)
    requires var pushed := Pushed(roles[at], stack, at); StackAfter(roles, pushed, at + 1, end) == pushed
    ensures StackAfter(roles, stack, at, end) == Pushed(roles[at], stack, at)
    ensures Popped(roles[end], Pushed(roles[at], stack, at)) == stack
    ensures StackAfter(roles, stack, at, to) == StackAfter(roles, stack, end + 1, to)
  {
    var pushed := Pushed(roles[at], stack, at);
    StackStep(roles, stack, at, end);
    StackSplits(roles, stack, at, end, to);
    StackStep(roles, pushed, end, to);
  }

  lemma {:induction false} StackRestored(roles: seq<Role>, f: Forest, at: nat, stack: seq<int>)
    requires StandsAt(roles, f, at)
    ensures StackAfter(roles, stack, at, at + Size(f)) == stack
  {
    var to := at + Size(f);
    match f
    case Empty =>
    case Plain(rest) =>
      StackStep(roles, stack, at, to);
      StackRestored(roles, rest, at + 1, stack);
    case Group(_, _, _) =>
      var end := at + 1 + Size(f.inner);
      StackRestored(roles, f.inner, at + 1, Pushed(roles[at], stack, at));
      StackRestored(roles, f.rest, end + 1, stack);
      StackGroup(roles, stack, at, end, to);
  }

  /** `o` is an open brace whose partner lies strictly after `i`. */
  predicate BraceAround(roles: seq<Role>, pairs: map<int, int>, o: int, i: nat) {
    o in pairs && 0 <= o < |roles| && roles[o] == Opener(Brace) && o < i < pairs[o]
  }

  ghost predicate Innermost(roles: seq<Role>, pairs: map<int, int>, i: nat, answer: Option<int>) {
    match answer
    case None => forall o :: !BraceAround(roles, pairs, o, i)
    case Some(o) => BraceAround(roles, pairs, o, i) && forall p :: BraceAround(roles, pairs, p, i) ==> p <= o
  }

  /** Inside a forest the answer is its own innermost brace around `i`, else what encloses the forest. */
  ghost predicate AnswerInForest(roles: seq<Role>, pairs: map<int, int>, outer: Option<int>, i: nat,
                                 answer: Option<int>) {
    if forall o :: !BraceAround(roles, pairs, o, i) then answer == outer else Innermost(roles, pairs, i, answer)
  }

  lemma GroupAnswer(roles: seq<Role>, inner: map<int, int>, rest: map<int, int>, pairs: map<int, int>, at: nat,
                    end: nat, i: nat,
                    outer: Option<int>, answer: Option<int>)
    requires at < i < end < |roles| && roles[at].Opener? && roles[end].Closer?
    requires forall o :: o in inner ==> at < o < end && at < inner[o] < end
    requires forall o :: o in rest ==> end < o
    requires AnswerInForest(roles, inner, if roles[at] == Opener(Brace) then Some(at) else outer, i, answer)
    requires pairs == inner[at := end][end := at] + rest
    ensures AnswerInForest(roles, pairs, outer, i, answer)
  {
    forall o ensures BraceAround(roles, pairs, o, i)
                     <==> BraceAround(roles, inner, o, i) || (o == at && roles[at] == Opener(Brace)) {}
    assert forall o :: BraceAround(roles, inner, o, i) ==> at < o;
    if roles[at] == Opener(Brace) {
      assert BraceAround(roles, pairs, at, i);
    }
  }

  lemma RestAnswer(roles: seq<Role>, inner: map<int, int>, rest: map<int, int>, pairs: map<int, int>, at: nat,
                   end: nat, i: nat,
                   outer: Option<int>, answer: Option<int>)
    requires at < end < i && forall o :: o in inner ==> at < o < end && at < inner[o] < end
    requires AnswerInForest(roles, rest, outer, i, answer)
    requires pairs == inner[at := end][end := at] + rest
    ensures AnswerInForest(roles, pairs, outer, i, answer)
  {
    forall o ensures BraceAround(roles, pairs, o, i) <==> BraceAround(roles, rest, o, i) {}
  }

  lemma EdgeAnswer(roles: seq<Role>, inner: map<int, int>, rest: map<int, int>, pairs: map<int, int>, at: nat,
                   end: nat, i: nat, outer: Option<int>)
    requires at < end && (i == at || i == end)
    requires forall o :: o in inner ==> at < o < end && at < inner[o] < end
    requires forall o :: o in rest ==> end < o
    requires pairs == inner[at := end][end := at] + rest
    ensures AnswerInForest(roles, pairs, outer, i, outer)
  {
    assert forall o :: !BraceAround(roles, pairs, o, i);
  }

  lemma InsideGroup(roles: seq<Role>, f: Forest, at: nat, stack: seq<int>, i: nat)
    requires f.Group? && StandsAt(roles, f, at) && at < i < at + 1 + Size(f.inner)
    requires var pushed := Pushed(roles[at], stack, at);
      AnswerInForest(roles, PairsOf(f.inner, at + 1), Top(pushed), i, EnclosingAt(roles, pushed, at + 1, i))
    ensures AnswerInForest(roles, PairsOf(f, at), Top(stack), i, EnclosingAt(roles, stack, at, i))
  {
    var end := at + 1 + Size(f.inner);
    PairsOfRange(f.inner, at + 1);
    PairsOfRange(f.rest, end + 1);
    StackStep(roles, stack, at, i);
    GroupAnswer(roles, PairsOf(f.inner, at + 1), PairsOf(f.rest, end + 1), PairsOf(f, at), at, end, i,
                Top(stack), EnclosingAt(roles, Pushed(roles[at], stack, at), at + 1, i));
  }

  lemma AfterGroup(roles: seq<Role>, f: Forest, at: nat, stack: seq<int>, i: nat)
    requires f.Group? && StandsAt(roles, f, at)
    requires at + 1 + Size(f.inner) < i < at + Size(f)
    requires var end := at + 1 + Size(f.inner);
      AnswerInForest(roles, PairsOf(f.rest, end + 1), Top(stack), i, EnclosingAt(roles, stack, end + 1, i))
    ensures AnswerInForest(roles, PairsOf(f, at), Top(stack), i, EnclosingAt(roles, stack, at, i))
  {
    var end := at + 1 + Size(f.inner);
    PairsOfRange(f.inner, at + 1);
    StackRestored(roles, f.inner, at + 1, Pushed(roles[at], stack, at));
    StackGroup(roles, stack, at, end, i);
    RestAnswer(roles, PairsOf(f.inner, at + 1), PairsOf(f.rest, end + 1), PairsOf(f, at), at, end, i,
               Top(stack), EnclosingAt(roles, stack, end + 1, i));
  }

  lemma EdgeOfGroup(roles: seq<Role>, f: Forest, at: nat, stack: seq<int>, i: nat)
    requires f.Group? && StandsAt(roles, f, at) && (i == at || i == at + 1 + Size(f.inner))
    ensures AnswerInForest(roles, PairsOf(f, at), Top(stack), i, EnclosingAt(roles, stack, at, i))
  {
    var end := at + 1 + Size(f.inner);
    PairsOfRange(f.inner, at + 1);
    PairsOfRange(f.rest, end + 1);
    StackRestored(roles, f.inner, at + 1, Pushed(roles[at], stack, at));
    StackGroup(roles, stack, at, end, at + Size(f));
    EdgeAnswer(roles, PairsOf(f.inner, at + 1), PairsOf(f.rest, end + 1), PairsOf(f, at), at, end, i, Top(stack));
  }

  lemma {:induction false} InnermostInForest(roles: seq<Role>, f: Forest, at: nat, stack: seq<int>, i: nat)
    requires StandsAt(roles, f, at) && at <= i < at + Size(f)
    ensures AnswerInForest(roles, PairsOf(f, at), Top(stack), i, EnclosingAt(roles, stack, at, i))
  {
    match f
    case Plain(rest) =>
      PairsOfRange(rest, at + 1);
      if i > at {
        StackStep(roles, stack, at, i);
        InnermostInForest(roles, rest, at + 1, stack, i);
      }
    case Group(d, inner, rest) =>
      var end := at + 1 + Size(inner);
      if at < i < end {
        InnermostInForest(roles, inner, at + 1, Pushed(roles[at], stack, at), i);
        InsideGroup(roles, f, at, stack, i);
      } else if i > end {
        InnermostInForest(roles, rest, end + 1, stack, i);
        AfterGroup(roles, f, at, stack, i);
      } else {
        EdgeOfGroup(roles, f, at, stack, i);
      }
  }

  /** On well-bracketed input each answer is the innermost open brace whose partner, under the
      pairing above, lies strictly after the index. */
  lemma EnclosingIsInnermost(roles: seq<Role>, f: Forest, i: nat)
    requires Parses(roles, f) && i < |roles|
    ensures Innermost(roles, Pairs(roles), i, EnclosingAt(roles, [], 0, i))
  {
    PairsFollowGrammar(roles, f);
    InnermostInForest(roles, f, 0, [], i);
  }

  // ----- where the two scans agree -----

  lemma PairStays(roles: seq<Role>, s: Scan, index: nat, i: int)
    requires index < |roles| && ScanInv(roles, s, index) && i in s.pairs
    ensures i in ScanRole(roles, s, index).pairs && ScanRole(roles, s, index).pairs[i] == s.pairs[i]
  {
    if TopMatches(roles, s.stack, roles[index]) { assert s.stack[|s.stack|-1] !in s.pairs && index !in s.pairs; }
  }

  lemma {:induction false} PairsStay(roles: seq<Role>, s: Scan, index: nat, i: int)
    requires ScanInv(roles, s, index) && i in s.pairs
    ensures i in ScanFrom(roles, s, index).pairs && ScanFrom(roles, s, index).pairs[i] == s.pairs[i]
    decreases |roles| - index
  {
    if index < |roles| {
      ScanRoleInv(roles, s, index);
      PairStays(roles, s, index, i);
      PairsStay(roles, ScanRole(roles, s, index), index + 1, i);
    }
  }

  /** The scan's state when it comes to an index. */
  lemma {:induction false} ScanReaches(roles: seq<Role>, index: nat) returns (s: Scan)
    requires index <= |roles|
    ensures ScanInv(roles, s, index) && ScanFrom(roles, s, index) == ScanFrom(roles, Scan([], map[]), 0)
  {
    s := Scan([], map[]);
    if index > 0 {
      var before := ScanReaches(roles, index - 1);
      ScanRoleInv(roles, before, index - 1);
      s := ScanRole(roles, before, index - 1);
      assert ScanFrom(roles, before, index - 1) == ScanFrom(roles, s, index);
    }
  }

  lemma AdjacentArePaired(roles: seq<Role>, o: nat)
    requires o + 1 < |roles| && roles[o].Opener? && roles[o+1] == Closer(roles[o].delimiter)
    ensures o in Pairs(roles) && Pairs(roles)[o] == o + 1
  {
    var s := ScanReaches(roles, o);
    PushInv(roles, s, o);
    var pushed := ScanRole(roles, s, o);
    MatchInv(roles, pushed, o + 1);
    PairsStay(roles, ScanRole(roles, pushed, o + 1), o + 2, o);
  }

  ghost predicate ScansAgree(roles: seq<Role>) {
    forall i: nat :: i < |roles| ==> Innermost(roles, Pairs(roles), i, EnclosingAt(roles, [], 0, i))
  }

  /** Every open brace is paired, unless it is the last token. */
  ghost predicate BracesClose(roles: seq<Role>) {
    forall o: nat :: o + 1 < |roles| && roles[o] == Opener(Brace) ==> o in Pairs(roles)
  }

  /** No unpaired closing brace stands inside a pair of braces. */
  ghost predicate NoStrayInside(roles: seq<Role>) {
    forall i: nat, o :: i < |roles| && roles[i] == Closer(Brace) && i !in Pairs(roles) ==>
      !BraceAround(roles, Pairs(roles), o, i)
  }

  ghost predicate IsClean(roles: seq<Role>) {
    BracesClose(roles) && NoStrayInside(roles)
  }

  /** The open braces before `i` whose partners lie at `i` or after it, in order. */
  ghost predicate IsOpenStack(roles: seq<Role>, pairs: map<int, int>, stack: seq<int>, i: nat) {
    && (forall k :: 0 <= k < |stack| ==>
         0 <= stack[k] < i && stack[k] < |roles| && roles[stack[k]] == Opener(Brace)
         && stack[k] in pairs && pairs[stack[k]] >= i)
    && (forall k, l :: 0 <= k < l < |stack| ==> stack[k] < stack[l])
    && (forall o :: o in pairs && 0 <= o < i && o < |roles| && roles[o] == Opener(Brace) && pairs[o] >= i ==>
         o in stack)
  }

  lemma StackNext(roles: seq<Role>, i: nat)
    requires i < |roles|
    ensures StackAfter(roles, [], 0, i + 1) == Pushed(roles[i], Popped(roles[i], StackAfter(roles, [], 0, i)), i)
  {
    StackSplits(roles, [], 0, i, i + 1);
  }

  /** The braces whose partners lie strictly after `i`, in order. */
  ghost predicate IsAroundStack(roles: seq<Role>, pairs: map<int, int>, stack: seq<int>, i: nat) {
    && (forall k :: 0 <= k < |stack| ==> BraceAround(roles, pairs, stack[k], i))
    && (forall k, l :: 0 <= k < l < |stack| ==> stack[k] < stack[l])
    && (forall o :: BraceAround(roles, pairs, o, i) ==> o in stack)
  }

  lemma NotBeyond(pairs: map<int, int>, o: int, p: int, i: int)
    requires NonCrossing(pairs) && o in pairs && p in pairs && pairs[o] == i && p < i <= pairs[p]
    ensures p <= o
  {
  }

  /** A closing brace that finds a brace open is paired with the top one. */
  lemma CloserPairsTop(roles: seq<Role>, pairs: map<int, int>, stack: seq<int>, i: nat, top: int)
    requires i < |roles| && roles[i] == Closer(Brace) && Matched(roles, pairs) && NonCrossing(pairs)
    requires IsOpenStack(roles, pairs, stack, i) && stack != [] && top == stack[|stack|-1]
    requires !BraceAround(roles, pairs, top, i) || i in pairs
    ensures i in pairs && pairs[i] == top && pairs[top] == i
  {
    assert pairs[pairs[top]] == top;
    assert pairs[pairs[i]] == i && pairs[i] in stack;
    NotBeyond(pairs, pairs[i], top, i);
  }

  /** Popping at `i` leaves the braces whose partners lie strictly after `i`. */
  lemma PoppedIsOpen(roles: seq<Role>, pairs: map<int, int>, stack: seq<int>, i: nat)
    requires i < |roles| && Matched(roles, pairs) && NonCrossing(pairs) && IsOpenStack(roles, pairs, stack, i)
    requires roles[i] == Closer(Brace) && i !in pairs ==> forall o :: !BraceAround(roles, pairs, o, i)
    ensures IsAroundStack(roles, pairs, Popped(roles[i], stack), i)
  {
    if roles[i] == Closer(Brace) && stack != [] {
      CloserPairsTop(roles, pairs, stack, i, stack[|stack|-1]);
      TopIsPopped(roles, pairs, stack, i);
    } else {
      NothingIsPopped(roles, pairs, stack, i);
    }
  }

  /** A brace whose partner is at `i` is closed there. */
  lemma ClosesAt(roles: seq<Role>, pairs: map<int, int>, o: int)
    requires Matched(roles, pairs) && o in pairs && o < pairs[o] && 0 <= o < |roles| && roles[o] == Opener(Brace)
    ensures pairs[o] < |roles| && roles[pairs[o]] == Closer(Brace)
  {
  }

  lemma NothingIsPopped(roles: seq<Role>, pairs: map<int, int>, stack: seq<int>, i: nat)
    requires i < |roles| && Matched(roles, pairs) && IsOpenStack(roles, pairs, stack, i)
    requires roles[i] != Closer(Brace) || stack == []
    ensures IsAroundStack(roles, pairs, stack, i)
  {
    forall k | 0 <= k < |stack| ensures BraceAround(roles, pairs, stack[k], i) { ClosesAt(roles, pairs, stack[k]); }
    forall o | BraceAround(roles, pairs, o, i) ensures o in stack {}
  }

  lemma TopIsPopped(roles: seq<Role>, pairs: map<int, int>, stack: seq<int>, i: nat)
    requires i < |roles| && IsOpenStack(roles, pairs, stack, i) && Matched(roles, pairs)
    requires stack != [] && i in pairs && pairs[i] == stack[|stack|-1] && pairs[stack[|stack|-1]] == i
    ensures IsAroundStack(roles, pairs, stack[..|stack|-1], i)
  {
    var popped := stack[..|stack|-1];
    forall k | 0 <= k < |popped| ensures BraceAround(roles, pairs, popped[k], i) {
      assert pairs[pairs[popped[k]]] == popped[k];
    }
    forall o | BraceAround(roles, pairs, o, i) ensures o in popped {
      var l :| 0 <= l < |stack| && stack[l] == o;
      assert popped[l] == o;
    }
  }

  lemma PushedIsOpen(roles: seq<Role>, pairs: map<int, int>, popped: seq<int>, i: nat)
    requires i + 1 < |roles| && Matched(roles, pairs) && (roles[i] == Opener(Brace) ==> i in pairs)
    requires IsAroundStack(roles, pairs, popped, i)
    ensures IsOpenStack(roles, pairs, Pushed(roles[i], popped, i), i + 1)
  {
    var stack := Pushed(roles[i], popped, i);
    forall o | o in pairs && 0 <= o < i + 1 && roles[o] == Opener(Brace) && pairs[o] >= i + 1 ensures o in stack {
      if o < i { assert BraceAround(roles, pairs, o, i); } else { assert stack[|stack|-1] == o; }
    }
    if roles[i] == Opener(Brace) { assert pairs[pairs[i]] == i; }
  }

  lemma OpenStackNext(roles: seq<Role>, before: seq<int>, after: seq<int>, i: nat)
    requires i + 1 < |roles| && IsClean(roles) && IsOpenStack(roles, Pairs(roles), before, i)
    requires after == Pushed(roles[i], Popped(roles[i], before), i)
    ensures IsOpenStack(roles, Pairs(roles), after, i + 1)
  {
    PairsAreNested(roles);
    PoppedIsOpen(roles, Pairs(roles), before, i);
    PushedIsOpen(roles, Pairs(roles), Popped(roles[i], before), i);
  }

  lemma NothingIsOpen(roles: seq<Role>, pairs: map<int, int>)
    ensures IsOpenStack(roles, pairs, [], 0)
  {
  }

  lemma {:induction false} StackIsOpen(roles: seq<Role>, i: nat, stack: seq<int>)
    requires i < |roles| && IsClean(roles) && stack == StackAfter(roles, [], 0, i)
    ensures IsOpenStack(roles, Pairs(roles), stack, i)
  {
    if i == 0 {
      NothingIsOpen(roles, Pairs(roles));
    } else {
      var before := StackAfter(roles, [], 0, i - 1);
      StackIsOpen(roles, i - 1, before);
      StackNext(roles, i - 1);
      OpenStackNext(roles, before, stack, i - 1);
    }
  }

  lemma AgreedBracesClose(roles: seq<Role>, o: nat)
    requires ScansAgree(roles) && o + 1 < |roles| && roles[o] == Opener(Brace)
    ensures o in Pairs(roles)
  {
    if roles[o+1] == Closer(Brace) {
      AdjacentArePaired(roles, o);
    } else {
      StackNext(roles, o);
      assert EnclosingAt(roles, [], 0, o + 1) == Some(o);
      assert Innermost(roles, Pairs(roles), o + 1, Some(o));
    }
  }

  /** The brace on top when a stray closing brace comes has its partner after that brace. */
  lemma TopIsAround(roles: seq<Role>, pairs: map<int, int>, i: nat, top: int)
    requires 0 < i < |roles| && Matched(roles, pairs) && i !in pairs
    requires BraceAround(roles, pairs, top, i - 1)
    ensures BraceAround(roles, pairs, top, i)
  {
    assert pairs[top] in pairs;
  }

  lemma AgreedHasNoStrayInside(roles: seq<Role>, i: nat, o: int)
    requires ScansAgree(roles) && i < |roles| && roles[i] == Closer(Brace) && i !in Pairs(roles)
    ensures !BraceAround(roles, Pairs(roles), o, i)
  {
    var pairs, stack := Pairs(roles), StackAfter(roles, [], 0, i);
    if BraceAround(roles, pairs, o, i) {
      PairsAreNested(roles);
      assert Innermost(roles, pairs, i, EnclosingAt(roles, [], 0, i));
      var q := EnclosingAt(roles, [], 0, i).value;
      assert |stack| >= 2 && stack[|stack|-2] == q;
      StackNext(roles, i - 1);
      if roles[i-1] == Opener(Brace) {
        AdjacentArePaired(roles, i - 1);
      } else {
        var top := stack[|stack|-1];
        assert EnclosingAt(roles, [], 0, i - 1) == Some(top);
        assert Innermost(roles, pairs, i - 1, Some(top));
        TopIsAround(roles, pairs, i, top);
        StackRises(roles, i, |stack| - 2);
      }
    }
  }

  /** Stacked braces rise. */
  lemma {:induction false} StackRises(roles: seq<Role>, i: nat, k: nat)
    requires i <= |roles| && k + 1 < |StackAfter(roles, [], 0, i)|
    ensures StackAfter(roles, [], 0, i)[k] < StackAfter(roles, [], 0, i)[k+1] < i
  {
    if i > 0 {
      StackNext(roles, i - 1);
      var before := StackAfter(roles, [], 0, i - 1);
      if k + 1 < |before| { StackRises(roles, i - 1, k); }
      if k < |before| && k > 0 { StackRises(roles, i - 1, k - 1); }
      if k == 0 && before != [] { StackBottom(roles, i - 1); }
    }
  }

  lemma {:induction false} StackBottom(roles: seq<Role>, i: nat)
    requires i <= |roles| && StackAfter(roles, [], 0, i) != []
    ensures StackAfter(roles, [], 0, i)[0] < i
  {
    if i > 0 {
      StackNext(roles, i - 1);
      if StackAfter(roles, [], 0, i - 1) != [] { StackBottom(roles, i - 1); }
    }
  }

  /** On every token sequence, balanced or not: each recorded brace is the innermost one whose partner
      lies strictly after the index, exactly when every open brace but one at the very end is paired
      and no unpaired closing brace stands inside a pair of braces. */
  lemma ScansAgreeExactlyWhen(roles: seq<Role>)
    ensures ScansAgree(roles) <==> BracesClose(roles) && NoStrayInside(roles)
  {
    if ScansAgree(roles) {
      forall o: nat | o + 1 < |roles| && roles[o] == Opener(Brace) ensures o in Pairs(roles) {
        AgreedBracesClose(roles, o);
      }
      forall i: nat, o | i < |roles| && roles[i] == Closer(Brace) && i !in Pairs(roles)
        ensures !BraceAround(roles, Pairs(roles), o, i)
      {
        AgreedHasNoStrayInside(roles, i, o);
      }
    }
    if IsClean(roles) {
      forall i: nat | i < |roles| ensures Innermost(roles, Pairs(roles), i, EnclosingAt(roles, [], 0, i)) {
        var stack := StackAfter(roles, [], 0, i);
        StackIsOpen(roles, i, stack);
        PairsAreNested(roles);
        PoppedIsOpen(roles, Pairs(roles), stack, i);
        var popped := Popped(roles[i], stack);
        if popped == [] {
          assert forall o :: !BraceAround(roles, Pairs(roles), o, i);
        } else {
          assert BraceAround(roles, Pairs(roles), popped[|popped|-1], i);
        }
      }
    }
  }

  /** They do disagree: this brace encloses the parenthesis but is never paired. */
  lemma UnbalancedScansDisagree()
    ensures var roles := [Opener(Brace), Opener(Paren), Closer(Brace)];
      Pairs(roles) == map[] && EnclosingAt(roles, [], 0, 1) == Some(0) && !BracesClose(roles) && !ScansAgree(roles)
  {
    var roles := [Opener(Brace), Opener(Paren), Closer(Brace)];
    assert roles[0] == Opener(Brace);
    assert ScanFrom(roles, Scan([0, 1], map[]), 2) == Scan([0, 1], map[]);
    assert ScanFrom(roles, Scan([0], map[]), 1) == ScanFrom(roles, Scan([0, 1], map[]), 2);
    assert ScanFrom(roles, Scan([], map[]), 0) == ScanFrom(roles, Scan([0], map[]), 1);
    ScansAgreeExactlyWhen(roles);
  }
}
