/** The name-deduplication rule shared by both copies of the client: a single
    left-to-right pass with a dictionary `seen` from each original name to the
    number of repeats met so far; the first occurrence is kept, the k-th repeat
    becomes `name_k`. */
module Names {

  /** Python's `str(n)` for a natural number. */
  function NatStr(n: nat): (s: string)
    ensures s != []
    decreases n
  {
    if n < 10 then ["0123456789"[n]] else NatStr(n / 10) + ["0123456789"[n % 10]]
  }

  /** `f"{name}_{k}"`. */
  function Suffixed(name: string, k: nat): string {
    name + "_" + NatStr(k)
  }

  /** Number of occurrences of `x` in `s`. */
  function Count(s: seq<string>, x: string): nat {
    if s == [] then 0 else Count(s[..|s| - 1], x) + (if s[|s| - 1] == x then 1 else 0)
  }

  /** The `seen` dictionary after the pass has looked at every name of `s`. */
  function Seen(s: seq<string>): map<string, nat> {
    if s == [] then map[]
    else
      var seen, name := Seen(s[..|s| - 1]), s[|s| - 1];
      if name !in seen then seen[name := 0] else seen[name := seen[name] + 1]
  }

  /** What the pass writes at a position, given `seen` before that position. */
  function Rename(seen: map<string, nat>, name: string): string {
    if name !in seen then name else Suffixed(name, seen[name] + 1)
  }

  /** The list the pass leaves behind. */
  function Dedup(s: seq<string>): seq<string> {
    if s == [] then []
    else Dedup(s[..|s| - 1]) + [Rename(Seen(s[..|s| - 1]), s[|s| - 1])]
  }

  /** One step of the pass: position `i` is renamed from the `seen` map of the
      names before it, and that map is updated with `s[i]`. */
  lemma DedupStep(s: seq<string>, i: nat)
    requires i < |s|
    ensures Dedup(s[..i + 1]) == Dedup(s[..i]) + [Rename(Seen(s[..i]), s[i])]
    ensures var seen := Seen(s[..i]);
            Seen(s[..i + 1]) == if s[i] !in seen then seen[s[i] := 0] else seen[s[i] := seen[s[i]] + 1]
  {
    assert s[..i + 1][..i] == s[..i];
  }

  /** `seen` holds exactly the names met so far, each with its count minus one. */
  lemma {:induction false} SeenCounts(s: seq<string>, x: string)
    ensures x in Seen(s) <==> Count(s, x) > 0
    ensures x in Seen(s) ==> Seen(s)[x] + 1 == Count(s, x)
  {
    if s != [] {
      SeenCounts(s[..|s| - 1], x);
    }
  }

  /** The pass preserves the length of the list. */
  lemma {:induction false} DedupLength(s: seq<string>)
    ensures |Dedup(s)| == |s|
  {
    if s != [] {
      DedupLength(s[..|s| - 1]);
    }
  }

  /** Position `i` keeps its name when it is the first occurrence, and becomes
      `name_k` when it is the k-th repeat (k occurrences before it). */
  lemma {:induction false} DedupAt(s: seq<string>, i: nat)
    requires i < |s|
    ensures |Dedup(s)| == |s|
    ensures Count(s[..i], s[i]) == 0 ==> Dedup(s)[i] == s[i]
    ensures Count(s[..i], s[i]) > 0 ==> Dedup(s)[i] == Suffixed(s[i], Count(s[..i], s[i]))
  {
    DedupLength(s);
    var init := s[..|s| - 1];
    DedupLength(init);
    if i == |s| - 1 {
      assert s[..i] == init;
      SeenCounts(init, s[i]);
    } else {
      DedupAt(init, i);
      assert init[..i] == s[..i];
      assert Dedup(s)[i] == Dedup(init)[i];
    }
  }

  /** A list without repeated names is left as it is. */
  lemma DedupDistinct(s: seq<string>)
    requires forall i, j :: 0 <= i < j < |s| ==> s[i] != s[j]
    ensures Dedup(s) == s
  {
    DedupLength(s);
    forall i | 0 <= i < |s|
      ensures Dedup(s)[i] == s[i]
    {
      NotBefore(s, i);
      DedupAt(s, i);
    }
  }

  lemma {:induction false} NotBefore(s: seq<string>, i: nat)
    requires i < |s|
    requires forall k, j :: 0 <= k < j < |s| ==> s[k] != s[j]
    ensures Count(s[..i], s[i]) == 0
  {
    CountAbsent(s[..i], s[i]);
  }

  lemma {:induction false} CountAbsent(s: seq<string>, x: string)
    requires forall k :: 0 <= k < |s| ==> s[k] != x
    ensures Count(s, x) == 0
  {
    if s != [] {
      CountAbsent(s[..|s| - 1], x);
    }
  }

  lemma CountSnoc(s: seq<string>, x: string, y: string)
    ensures Count(s + [y], x) == Count(s, x) + (if y == x then 1 else 0)
  {
    assert (s + [y])[..|s|] == s;
  }

  /** The first two names of the example are distinct and pass unchanged. */
  lemma DedupExampleStart()
    ensures Dedup(["A", "B"]) == ["A", "B"]
    ensures "A" in Seen(["A", "B"]) && Seen(["A", "B"])["A"] == 0
  {
    var s := ["A", "B"];
    assert s[..0] == [] && s[..2] == s;
    DedupStep(s, 0);
    DedupStep(s, 1);
  }

  /** The documented example: `["A","B","A","A"]` becomes `["A","B","A_1","A_2"]`. */
  lemma DedupExample()
    ensures Dedup(["A", "B", "A", "A"]) == ["A", "B", "A_1", "A_2"]
  {
    var s := ["A", "B", "A", "A"];
    assert s[..2] == ["A", "B"];
    DedupExampleStart();
    assert Suffixed("A", 1) == "A_1" by { assert NatStr(1) == "1"; }
    DedupStep(s, 2);
    assert Dedup(s[..3]) == ["A", "B", "A_1"] && Seen(s[..3])["A"] == 1;
    assert Suffixed("A", 2) == "A_2" by { assert NatStr(2) == "2"; }
    DedupStep(s, 3);
    assert s[..4] == s;
  }

  /** The counter is keyed on the original name, so a produced name can equal a
      name that was already in the list: the result need not be duplicate-free. */
  lemma DedupCanCollide()
    ensures Dedup(["A", "A", "A_1"]) == ["A", "A_1", "A_1"]
  {
    var s := ["A", "A", "A_1"];
    assert s[..0] == [] && s[..1] == ["A"] && s[..2] == ["A", "A"];
    CountSnoc([], "A", "A"); CountSnoc([], "A_1", "A"); CountSnoc(["A"], "A_1", "A");
    assert NatStr(1) == "1";
    DedupAt(s, 0); DedupAt(s, 1); DedupAt(s, 2);
    var d := Dedup(s);
    assert Count(s[..1], "A") == 1;
    assert Count(s[..2], "A_1") == 0;
    assert d[0] == "A";
    assert d[1] == "A_1";
    assert d[2] == "A_1";
  }
}
