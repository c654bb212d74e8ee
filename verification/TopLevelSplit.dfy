/** Splitting a token list at its top-level delimiters, and locating the token that follows a
    top-level parameter. */
module TopLevelSplit {
  import opened Options
  import opened TokenPairs

  /** The running depth, clamped at zero: a stray closer never makes it negative. */
  function NextDepth(depth: nat, token: BundleToken): nat {
    var role := RoleOf(token.value);
    if role.Opener? then depth + 1
    else if role.Closer? then (if depth > 0 then depth - 1 else 0)
    else depth
  }

  function DepthAfter(tokens: seq<BundleToken>): nat {
    if tokens == [] then 0 else NextDepth(DepthAfter(tokens[..|tokens|-1]), tokens[|tokens|-1])
  }

  /** Token `i` separates two pieces. */
  predicate Separates(tokens: seq<BundleToken>, delimiter: string, i: nat)
    requires i < |tokens|
  {
    tokens[i].value == delimiter && DepthAfter(tokens[..i+1]) == 0
  }

  function LastPiece(pieces: seq<seq<BundleToken>>): seq<BundleToken>
    requires pieces != []
  {
    pieces[|pieces|-1]
  }

  /** The split of a list, one token at a time from the left. */
  function Split(tokens: seq<BundleToken>, delimiter: string): (pieces: seq<seq<BundleToken>>)
    ensures pieces != []
  {
    if tokens == [] then [[]]
    else
      var front := tokens[..|tokens|-1];
      var pieces := Split(front, delimiter);
      if Separates(tokens, delimiter, |tokens|-1) then pieces + [[]]
      else pieces[|pieces|-1 := LastPiece(pieces) + [tokens[|tokens|-1]]]
  }

  /** What one more token does to the split and to the depth. */
  lemma SplitStep(tokens: seq<BundleToken>, delimiter: string, index: nat)
    requires index < |tokens|
    ensures var token, pieces := tokens[index], Split(tokens[..index], delimiter);
      var depth := NextDepth(DepthAfter(tokens[..index]), token);
      && DepthAfter(tokens[..index+1]) == depth
      && Split(tokens[..index+1], delimiter) ==
           if token.value == delimiter && depth == 0 then pieces + [[]]
           else pieces[|pieces|-1 := LastPiece(pieces) + [token]]
  {
    var longer := tokens[..index+1];
    assert longer[..index] == tokens[..index];
    assert longer[..index+1] == longer;
  }

  method SplitTopLevel(tokens: seq<BundleToken>, delimiter: string) returns (output: seq<seq<BundleToken>>)
    ensures output == Split(tokens, delimiter)
  {
    output := [[]];
    var depth := 0;
    for index := 0 to |tokens|
      invariant output == Split(tokens[..index], delimiter)
      invariant depth == DepthAfter(tokens[..index])
    {
      var token := tokens[index];
      SplitStep(tokens, delimiter, index);
      var role := RoleOf(token.value);
      if role.Opener? { depth := depth + 1; }
      else if role.Closer? { depth := if depth > 0 then depth - 1 else 0; }
      if token.value == delimiter && depth == 0 {
        output := output + [[]];
      } else {
        output := output[|output|-1 := output[|output|-1] + [token]];
      }
    }
    assert tokens[..|tokens|] == tokens;
  }

  // ----- what the pieces are -----

  /** The pieces with a separator between each two, the separators taken in order. */
  function Join(pieces: seq<seq<BundleToken>>, separators: seq<BundleToken>): seq<BundleToken>
    requires |pieces| == |separators| + 1
  {
    if separators == [] then pieces[0]
    else
      Join(pieces[..|pieces|-1], separators[..|separators|-1]) + [separators[|separators|-1]] + pieces[|pieces|-1]
  }

  function Separators(tokens: seq<BundleToken>, delimiter: string): seq<BundleToken> {
    if tokens == [] then []
    else
      Separators(tokens[..|tokens|-1], delimiter)
      + if Separates(tokens, delimiter, |tokens|-1) then [tokens[|tokens|-1]] else []
  }

  /** No token of the piece is the delimiter at the piece's own depth zero. */
  ghost predicate Indivisible(piece: seq<BundleToken>, delimiter: string) {
    forall i: nat :: i < |piece| ==> !Separates(piece, delimiter, i)
  }

  lemma JoinGrow(pieces: seq<seq<BundleToken>>, separators: seq<BundleToken>, token: BundleToken)
    requires |pieces| == |separators| + 1
    ensures Join(pieces[|pieces|-1 := LastPiece(pieces) + [token]], separators) == Join(pieces, separators) + [token]
  {
    var grown := pieces[|pieces|-1 := LastPiece(pieces) + [token]];
    assert grown[..|grown|-1] == pieces[..|pieces|-1];
  }

  lemma JoinSplitAt(pieces: seq<seq<BundleToken>>, separators: seq<BundleToken>, token: BundleToken)
    requires |pieces| == |separators| + 1
    ensures Join(pieces + [[]], separators + [token]) == Join(pieces, separators) + [token]
  {
    var grown := pieces + [[]];
    assert grown[..|grown|-1] == pieces && (separators + [token])[..|separators|] == separators;
  }

  /** One more token: it becomes a separator or goes to the last piece. */
  lemma JoinStep(pieces: seq<seq<BundleToken>>, separators: seq<BundleToken>, token: BundleToken, separates: bool)
    requires |pieces| == |separators| + 1
    ensures var after := if separates then pieces + [[]] else pieces[|pieces|-1 := LastPiece(pieces) + [token]];
      var more := separators + if separates then [token] else [];
      |after| == |more| + 1 && Join(after, more) == Join(pieces, separators) + [token]
  {
    if separates {
      JoinSplitAt(pieces, separators, token);
    } else {
      JoinGrow(pieces, separators, token);
      assert separators + [] == separators;
    }
  }

  lemma DepthStep(tokens: seq<BundleToken>, delimiter: string, pieces: seq<seq<BundleToken>>)
    requires tokens != [] && pieces == Split(tokens[..|tokens|-1], delimiter)
    requires DepthAfter(LastPiece(pieces)) == DepthAfter(tokens[..|tokens|-1])
    ensures DepthAfter(LastPiece(Split(tokens, delimiter))) == DepthAfter(tokens)
  {
    assert tokens[..|tokens|-1+1] == tokens;
    if !Separates(tokens, delimiter, |tokens|-1) {
      var last := LastPiece(pieces) + [tokens[|tokens|-1]];
      assert last[..|last|-1] == LastPiece(pieces);
    }
  }

  /** Joining the pieces with the removed separators restores the input. */
  lemma {:induction false} SplitJoins(tokens: seq<BundleToken>, delimiter: string)
    ensures |Split(tokens, delimiter)| == |Separators(tokens, delimiter)| + 1
    ensures Join(Split(tokens, delimiter), Separators(tokens, delimiter)) == tokens
  {
    if tokens != [] {
      var front := tokens[..|tokens|-1];
      SplitJoins(front, delimiter);
      JoinStep(Split(front, delimiter), Separators(front, delimiter), tokens[|tokens|-1],
               Separates(tokens, delimiter, |tokens|-1));
      assert tokens == front + [tokens[|tokens|-1]];
    }
  }

  /** Every separator is the delimiter, and the depth inside the last piece is that of the whole input. */
  lemma {:induction false} SplitsAtDelimiters(tokens: seq<BundleToken>, delimiter: string)
    ensures forall s :: s in Separators(tokens, delimiter) ==> s.value == delimiter
    ensures DepthAfter(LastPiece(Split(tokens, delimiter))) == DepthAfter(tokens)
  {
    if tokens != [] {
      var front := tokens[..|tokens|-1];
      SplitsAtDelimiters(front, delimiter);
      DepthStep(tokens, delimiter, Split(front, delimiter));
    }
  }

  lemma GrownPieceIsIndivisible(piece: seq<BundleToken>, delimiter: string, token: BundleToken)
    requires Indivisible(piece, delimiter)
    requires token.value != delimiter || NextDepth(DepthAfter(piece), token) != 0
    ensures Indivisible(piece + [token], delimiter)
  {
    var last := piece + [token];
    forall i: nat | i < |last| ensures !Separates(last, delimiter, i) {
      if i < |piece| {
        assert last[..i+1] == piece[..i+1];
        assert !Separates(piece, delimiter, i);
      } else {
        assert last[..i+1] == last && last[..|last|-1] == piece;
      }
    }
  }

  lemma {:induction false} PiecesAreIndivisible(tokens: seq<BundleToken>, delimiter: string)
    ensures forall k :: 0 <= k < |Split(tokens, delimiter)| ==> Indivisible(Split(tokens, delimiter)[k], delimiter)
  {
    if tokens != [] {
      var n := |tokens| - 1;
      PiecesAreIndivisible(tokens[..n], delimiter);
      SplitsAtDelimiters(tokens[..n], delimiter);
      SplitStep(tokens, delimiter, n);
      assert tokens[..n+1] == tokens;
      var pieces := Split(tokens[..n], delimiter);
      if tokens[n].value != delimiter || NextDepth(DepthAfter(tokens[..n]), tokens[n]) != 0 {
        GrownPieceIsIndivisible(LastPiece(pieces), delimiter, tokens[n]);
      }
    }
  }

  // ----- parameterFollowingRangeStart -----

  /** Where piece `k` starts: the earlier pieces and one separator after each of them. */
  function Start(pieces: seq<seq<BundleToken>>, k: nat): nat
    requires k <= |pieces|
  {
    if k == 0 then 0 else Start(pieces, k - 1) + |pieces[k-1]| + 1
  }

  lemma {:induction false} StartDependsOnFront(a: seq<seq<BundleToken>>, b: seq<seq<BundleToken>>, k: nat)
    requires k <= |a| && k <= |b| && a[..k] == b[..k]
    ensures Start(a, k) == Start(b, k)
  {
    if k > 0 {
      assert a[k-1] == a[..k][k-1] == b[k-1];
      assert a[..k-1] == a[..k][..k-1] == b[..k-1];
      StartDependsOnFront(a, b, k - 1);
    }
  }

  function End(pieces: seq<seq<BundleToken>>): nat
    requires pieces != []
  {
    Start(pieces, |pieces| - 1) + |LastPiece(pieces)|
  }

  lemma EndMoves(before: seq<seq<BundleToken>>, token: BundleToken)
    requires before != []
    ensures End(before + [[]]) == End(before) + 1
    ensures End(before[|before|-1 := LastPiece(before) + [token]]) == End(before) + 1
  {
    StartDependsOnFront(before, before + [[]], |before|);
    StartDependsOnFront(before, before[|before|-1 := LastPiece(before) + [token]], |before| - 1);
  }

  /** The last piece reaches to the end of the input. */
  lemma {:induction false} LastPieceEnds(tokens: seq<BundleToken>, delimiter: string)
    ensures End(Split(tokens, delimiter)) == |tokens|
  {
    if tokens != [] {
      var front := tokens[..|tokens|-1];
      LastPieceEnds(front, delimiter);
      EndMoves(Split(front, delimiter), tokens[|tokens|-1]);
    }
  }

  /** Once a piece is closed, further tokens neither change nor move it. */
  lemma {:induction false} ClosedPiecesStay(tokens: seq<BundleToken>, delimiter: string, m: nat, n: nat)
    requires m <= n <= |tokens|
    ensures var early, late := Split(tokens[..m], delimiter), Split(tokens[..n], delimiter);
      |early| <= |late| && late[..|early|-1] == early[..|early|-1]
    decreases n
  {
    if m < n {
      ClosedPiecesStay(tokens, delimiter, m, n - 1);
      SplitStep(tokens, delimiter, n - 1);
    }
  }

  /** At a top-level comma the piece after it has just started, and there it stays. */
  lemma CommaStartsPiece(inner: seq<BundleToken>, m: nat)
    requires m < |inner| && Separates(inner[..m+1], ",", m)
    ensures var k := |Split(inner[..m], ",")|;
      k < |Split(inner, ",")| && Start(Split(inner, ","), k) == m + 1
  {
    var now, all := Split(inner[..m+1], ","), Split(inner, ",");
    SplitStep(inner, ",", m);
    assert inner[..m+1][..m+1] == inner[..m+1];
    LastPieceEnds(inner[..m+1], ",");
    ClosedPiecesStay(inner, ",", m + 1, |inner|);
    assert inner[..|inner|] == inner;
    StartDependsOnFront(now, all, |now| - 1);
  }

  /** One token of a parameter list: the depth, the number of pieces, and where a new one starts. */
  lemma ParameterStep(inner: seq<BundleToken>, m: nat)
    requires m < |inner|
    ensures var depth := NextDepth(DepthAfter(inner[..m]), inner[m]);
      var comma := inner[m].value == "," && depth == 0;
      var k := |Split(inner[..m], ",")|;
      && DepthAfter(inner[..m+1]) == depth
      && |Split(inner[..m+1], ",")| == k + (if comma then 1 else 0)
      && (comma ==> k < |Split(inner, ",")| && Start(Split(inner, ","), k) == m + 1)
  {
    SplitStep(inner, ",", m);
    assert inner[..m+1][..m+1] == inner[..m+1];
    if Separates(inner[..m+1], ",", m) { CommaStartsPiece(inner, m); }
  }

  /** The start of piece `parameterIndex + 1` of the parameter list between `open` and `close`,
      as an index into all tokens, or the fallback when the list has no such piece. */
  method ParameterFollowingRangeStart(tokens: seq<BundleToken>, open: nat, close: nat, parameterIndex: nat,
                                      fallback: int)
    returns (start: int)
    requires open < close <= |tokens|
    ensures var pieces := Split(tokens[open+1..close], ",");
      start == if parameterIndex + 1 < |pieces| then open + 1 + Start(pieces, parameterIndex + 1) else fallback
  {
    ghost var inner := tokens[open+1..close];
    ghost var m := 0;
    var depth := 0;
    var completedParameter := 0;
    for index := open + 1 to close
      invariant m == index - open - 1 && depth == DepthAfter(inner[..m])
      invariant completedParameter == |Split(inner[..m], ",")| - 1 <= parameterIndex
    {
      ParameterStep(inner, m);
      assert inner[m] == tokens[index];
      var value := tokens[index].value;
      var role := RoleOf(value);
      if role.Opener? { depth := depth + 1; }
      else if role.Closer? { depth := if depth > 0 then depth - 1 else 0; }
      else if value == "," && depth == 0 {
        if completedParameter == parameterIndex { return index + 1; }
        completedParameter := completedParameter + 1;
      }
      m := m + 1;
    }
    assert inner[..|inner|] == inner;
    return fallback;
  }
}
