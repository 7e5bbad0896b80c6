/**
 * `collect_contract_paths` of scripts/data_process/copy_filtered_contracts.py:
 * the contract paths listed in the first column of an already-read CSV
 * file, in row order, without comment and header rows.
 */
module ContractPaths {
  import opened Text

  /** A CSV row as `csv.reader` yields it: its cells. */
  type Row = seq<string>

  /** An empty row, or one whose first cell, before stripping, starts a comment or the header. */
  predicate Skipped(row: Row) {
    |row| == 0 || StartsWith(row[0], "//") || StartsWith(row[0], "Contract Path")
  }

  /** The first cell, stripped of surrounding white space. */
  function PathOf(row: Row): string
    requires |row| > 0
  {
    Strip(row[0])
  }

  /** A row that contributes a path: not skipped, and its stripped first cell is a non-empty `.sol` name. */
  predicate Kept(row: Row) {
    !Skipped(row) && |PathOf(row)| > 0 && EndsWith(PathOf(row), ".sol")
  }

  /** The list `collect_contract_paths` returns. */
  function KeptPaths(rows: seq<Row>): seq<string>
    decreases |rows|
  {
    if |rows| == 0 then []
    else
      var last := rows[|rows| - 1];
      KeptPaths(rows[..|rows| - 1]) + (if Kept(last) then [PathOf(last)] else [])
  }

  /** The indices of the kept rows, in order. */
  function KeptRows(rows: seq<Row>): (ix: seq<nat>)
    ensures forall k :: 0 <= k < |ix| ==> ix[k] < |rows|
    decreases |rows|
  {
    if |rows| == 0 then []
    else
      var init := KeptRows(rows[..|rows| - 1]);
      if Kept(rows[|rows| - 1]) then init + [|rows| - 1] else init
  }

  /** One path per kept row, each the stripped first cell of its row. */
  lemma {:induction false} KeptPathsFollowKeptRows(rows: seq<Row>)
    ensures |KeptPaths(rows)| == |KeptRows(rows)|
    ensures forall k :: 0 <= k < |KeptRows(rows)| ==>
      Kept(rows[KeptRows(rows)[k]]) && KeptPaths(rows)[k] == PathOf(rows[KeptRows(rows)[k]])
  {
    KeptCounts(rows);
    forall k | 0 <= k < |KeptRows(rows)|
      ensures Kept(rows[KeptRows(rows)[k]]) && KeptPaths(rows)[k] == PathOf(rows[KeptRows(rows)[k]])
    {
      KeptPathAt(rows, k);
    }
  }

  /** As many paths as kept rows. */
  lemma {:induction false} KeptCounts(rows: seq<Row>)
    ensures |KeptPaths(rows)| == |KeptRows(rows)|
    decreases |rows|
  {
    if |rows| > 0 {
      KeptCounts(rows[..|rows| - 1]);
    }
  }

  /** The `k`-th path is the stripped first cell of the `k`-th kept row. */
  lemma {:induction false} KeptPathAt(rows: seq<Row>, k: nat)
    requires k < |KeptRows(rows)|
    ensures |KeptPaths(rows)| == |KeptRows(rows)|
    ensures Kept(rows[KeptRows(rows)[k]]) && KeptPaths(rows)[k] == PathOf(rows[KeptRows(rows)[k]])
    decreases |rows|
  {
    KeptCounts(rows);
    var init := rows[..|rows| - 1];
    KeptCounts(init);
    if k < |KeptRows(init)| {
      KeptPathAt(init, k);
      var i := KeptRows(init)[k];
      assert rows[i] == init[i];
      assert KeptRows(rows)[k] == i;
      assert KeptPaths(rows)[k] == KeptPaths(init)[k];
    }
  }

  /** The kept rows are taken in row order, each once. */
  lemma {:induction false} KeptRowsIncrease(rows: seq<Row>)
    ensures forall k, l :: 0 <= k < l < |KeptRows(rows)| ==> KeptRows(rows)[k] < KeptRows(rows)[l]
    decreases |rows|
  {
    if |rows| > 0 {
      KeptRowsIncrease(rows[..|rows| - 1]);
    }
  }

  /** No kept row is missed. */
  lemma {:induction false} KeptRowsComplete(rows: seq<Row>, i: nat)
    requires i < |rows| && Kept(rows[i])
    ensures i in KeptRows(rows)
    decreases |rows|
  {
    if i < |rows| - 1 {
      var init := rows[..|rows| - 1];
      assert init[i] == rows[i];
      KeptRowsComplete(init, i);
    }
  }

  /** There are never more paths than rows. */
  lemma {:induction false} AtMostOnePathPerRow(rows: seq<Row>)
    ensures |KeptPaths(rows)| <= |rows|
    decreases |rows|
  {
    if |rows| > 0 {
      AtMostOnePathPerRow(rows[..|rows| - 1]);
    }
  }

  /** Every path is a non-empty `.sol` name with no white space at either end. */
  lemma {:induction false} PathsAreSolidityFiles(rows: seq<Row>)
    ensures forall p :: p in KeptPaths(rows) ==>
      |p| > 0 && EndsWith(p, ".sol") && !IsSpace(p[0]) && !IsSpace(p[|p| - 1])
    decreases |rows|
  {
    if |rows| > 0 {
      PathsAreSolidityFiles(rows[..|rows| - 1]);
    }
  }

  /** The loop of `collect_contract_paths` over the rows, with its `continue` guards. */
  method CollectContractPaths(rows: seq<Row>) returns (contracts: seq<string>)
    ensures contracts == KeptPaths(rows)
  {
    contracts := [];
    var i := 0;
    while i < |rows|
      invariant 0 <= i <= |rows|
      invariant contracts == KeptPaths(rows[..i])
    {
      assert rows[..i + 1][..i] == rows[..i];
      var row := rows[i];
      i := i + 1;
      if |row| == 0 {
        continue;
      }
      if StartsWith(row[0], "//") || StartsWith(row[0], "Contract Path") {
        continue;
      }
      var contractPath := Strip(row[0]);
      if |contractPath| > 0 && EndsWith(contractPath, ".sol") {
        contracts := contracts + [contractPath];
      }
    }
    assert rows[..i] == rows;
  }

  /** The header row is dropped. */
  lemma HeaderDropped()
    ensures !Kept(["Contract Path"])
  {
    assert StartsWith("Contract Path", "Contract Path");
  }

  /** A comment row is dropped though it names a `.sol` file. */
  lemma CommentDropped()
    ensures !Kept(["//x.sol"])
  {
    assert "//x.sol"[..2] == "//";
  }

  /**
   * The comment test looks at the cell before it is stripped: an indented
   * `//` row is kept, slashes and all.
   */
  lemma IndentedCommentKept()
    ensures Kept([" //y.sol"]) && PathOf([" //y.sol"]) == "//y.sol"
  {
    IndentedCommentNotSkipped();
    IndentedCommentStripped();
    SolidityName("//y.sol");
    KeptWith([" //y.sol"], "//y.sol");
  }

  /** The indented cell starts neither a comment nor the header. */
  lemma IndentedCommentNotSkipped()
    ensures !Skipped([" //y.sol"])
  {
    assert " //y.sol"[0] == ' ';
  }

  /** Stripping the indented cell removes its one leading space. */
  lemma IndentedCommentStripped()
    ensures Strip(" //y.sol") == "//y.sol"
  {
    var cell, path := " //y.sol", "//y.sol";
    assert cell[0] == ' ' && cell[1..] == path;
    assert path[0] == '/' && path[|path| - 1] == 'l';
    UnpaddedStrip(path);
    assert StripStart(cell) == path;
  }

  /** A text that neither starts nor ends with white space strips to itself. */
  lemma UnpaddedStrip(s: string)
    requires |s| > 0 && !IsSpace(s[0]) && !IsSpace(s[|s| - 1])
    ensures StripStart(s) == s && StripEnd(s) == s
  {
  }

  /** A row that is not skipped and whose first cell strips to a `.sol` name is kept with that path. */
  lemma KeptWith(row: Row, path: string)
    requires |row| > 0 && !StartsWith(row[0], "//") && !StartsWith(row[0], "Contract Path")
    requires Strip(row[0]) == path && |path| > 0 && EndsWith(path, ".sol")
    ensures Kept(row) && PathOf(row) == path
  {
  }

  /** Any text of at least four characters whose last four are ".sol" ends with ".sol". */
  lemma SolidityName(path: string)
    requires |path| >= 4 && path[|path| - 4..] == ".sol"
    ensures EndsWith(path, ".sol")
  {
  }

  /** Surrounding white space is stripped and further columns are ignored, whatever they hold. */
  lemma TrailingSpaceStripped(rest: seq<string>)
    ensures Kept(["a.sol "] + rest) && PathOf(["a.sol "] + rest) == "a.sol"
  {
    var row := ["a.sol "] + rest;
    assert row[0] == "a.sol ";
    TrailingSpaceNotSkipped();
    TrailingSpaceStrip();
    assert "a.sol"[1..] == ".sol";
    SolidityName("a.sol");
    KeptWith(row, "a.sol");
  }

  /** The padded cell starts neither a comment nor the header. */
  lemma TrailingSpaceNotSkipped()
    ensures !StartsWith("a.sol ", "//") && !StartsWith("a.sol ", "Contract Path")
  {
    assert "a.sol "[0] == 'a';
  }

  /** Stripping the padded cell removes its one trailing space. */
  lemma TrailingSpaceStrip()
    ensures Strip("a.sol ") == "a.sol"
  {
    var cell, path := "a.sol ", "a.sol";
    assert cell[|cell| - 1] == ' ' && cell[..|cell| - 1] == path;
    assert cell[0] == 'a' && path[0] == 'a' && path[|path| - 1] == 'l';
    assert StripStart(cell) == cell;
    UnpaddedStrip(path);
    assert StripEnd(cell) == path;
  }
}
