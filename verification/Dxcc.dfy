/**
 * The country table. Its entities come with a list of patterns: `=CALL` matches one call exactly, anything else is a
 * prefix. The table is built as a dictionary and a trie; the reference is one scan over the flat pattern list.
 */
module Dxcc {
  import opened Prelude
  import opened MsgParse

  datatype Country = Country(name: string, continent: string)

  datatype Entity = Entity(country: Country, prefixes: seq<string>)

  // ---- the reference: one scan over the patterns in file order -----------

  datatype Entry = Entry(pattern: string, country: Country)

  function EntriesOf(country: Country, prefixes: seq<string>): seq<Entry> {
    seq(|prefixes|, i requires 0 <= i < |prefixes| => Entry(prefixes[i], country))
  }

  function Entries(entities: seq<Entity>): seq<Entry> {
    if entities == [] then []
    else
      var last := entities[|entities| - 1];
      Entries(entities[..|entities| - 1]) + EntriesOf(last.country, last.prefixes)
  }

  lemma EntriesOfOne(e: Entity)
    ensures Entries([e]) == EntriesOf(e.country, e.prefixes)
  {
    assert [e][..0] == [];
    assert Entries([]) + EntriesOf(e.country, e.prefixes) == EntriesOf(e.country, e.prefixes);
  }

  /** The entries of a table are those of its parts, in the order of the file. */
  lemma {:induction false} EntriesInFileOrder(a: seq<Entity>, b: seq<Entity>)
    ensures Entries(a + b) == Entries(a) + Entries(b)
  {
    if b == [] {
      assert a + b == a;
    } else {
      var init, last := b[..|b| - 1], b[|b| - 1];
      EntriesInFileOrder(a, init);
      assert (a + b)[..|a + b| - 1] == a + init && (a + b)[|a + b| - 1] == last;
      Regroup(Entries(a), Entries(init), EntriesOf(last.country, last.prefixes));
    }
  }

  lemma Regroup(x: seq<Entry>, y: seq<Entry>, z: seq<Entry>)
    ensures x + y + z == x + (y + z)
  {
  }

  predicate IsExact(pattern: string) { pattern != "" && pattern[0] == '=' }

  /** The country of the first entry with this very pattern. */
  function First(es: seq<Entry>, pattern: string): Option<Country> {
    if es == [] then None
    else
      var earlier := First(es[..|es| - 1], pattern);
      var last := es[|es| - 1];
      if earlier.None? && last.pattern == pattern then Some(last.country) else earlier
  }

  /** `at` is where the pattern is first encountered, past the end when it never is. */
  lemma {:induction false} FirstEncountered(es: seq<Entry>, pattern: string) returns (at: nat)
    ensures at <= |es| && forall i | 0 <= i < at :: es[i].pattern != pattern
    ensures First(es, pattern) == if at < |es| then Some(es[at].country) else None
    ensures at < |es| ==> es[at].pattern == pattern
  {
    if es == [] {
      at := 0;
    } else {
      var init := es[..|es| - 1];
      at := FirstEncountered(init, pattern);
      if at == |init| && es[at].pattern != pattern {
        at := |es|;
      }
    }
  }

  datatype Best = Best(length: nat, country: Option<Country>)

  /** Keep the longest nonempty prefix pattern of `base`, the earlier one among equals. */
  function Scan(es: seq<Entry>, base: string): Best {
    if es == [] then Best(0, None)
    else
      var sofar := Scan(es[..|es| - 1], base);
      var e := es[|es| - 1];
      if !IsExact(e.pattern) && e.pattern <= base && |e.pattern| > sofar.length
      then Best(|e.pattern|, Some(e.country))
      else sofar
  }

  function Base(call: string): string { Upper(UpToSlash(call)) }

  function Reference(es: seq<Entry>, call: string): Option<Country> {
    var exact := First(es, "=" + Base(call));
    if exact.Some? then exact else Scan(es, Base(call)).country
  }

  /** The country filed under one prefix. */
  function Filed(es: seq<Entry>, prefix: string): Option<Country> {
    if IsExact(prefix) then None else First(es, prefix)
  }

  /** `best` is the country of the longest of the first `k` nonempty prefixes of `base` that has one. */
  ghost predicate IsLongest(es: seq<Entry>, base: string, k: nat, best: Best)
    requires k <= |base|
  {
    && best.length <= k
    && (best.length == 0 ==> best.country.None?)
    && (best.length > 0 ==> best.country.Some? && best.country == Filed(es, base[..best.length]))
    && (forall l | best.length < l <= k :: Filed(es, base[..l]).None?)
  }

  /** The scan meets its description: nothing longer matches, and of equals the first encountered counts. */
  lemma {:induction false} ScanIsLongest(es: seq<Entry>, base: string)
    ensures IsLongest(es, base, |base|, Scan(es, base))
  {
    if es != [] {
      var init, e := es[..|es| - 1], es[|es| - 1];
      ScanIsLongest(init, base);
      if e.pattern <= base {
        assert base[..|e.pattern|] == e.pattern;
      }
      forall l | Scan(es, base).length < l <= |base| ensures Filed(es, base[..l]).None? {
        assert Filed(init, base[..l]).None?;
        if base[..l] == e.pattern {
          assert e.pattern <= base;
        }
      }
    }
  }

  /** The description leaves one answer, so meeting it is agreeing with the scan. */
  lemma LongestIsScan(es: seq<Entry>, base: string, best: Best)
    requires IsLongest(es, base, |base|, best)
    ensures best == Scan(es, base)
  {
    ScanIsLongest(es, base);
  }

  lemma OneLonger(es: seq<Entry>, base: string, k: nat, best: Best)
    requires k < |base| && IsLongest(es, base, k, best)
    ensures var filed := Filed(es, base[..k + 1]);
            IsLongest(es, base, k + 1, if filed.Some? then Best(k + 1, filed) else best)
  {
  }

  // ---- the answer without the scan -----------------------------------------

  /** Entry `k` names this very call, and is the first to. */
  predicate NamesCall(es: seq<Entry>, base: string, k: nat)
    requires k < |es|
  {
    es[k].pattern == "=" + base && forall j | 0 <= j < k :: es[j].pattern != "=" + base
  }

  predicate FitsCall(e: Entry, base: string) { !IsExact(e.pattern) && e.pattern != "" && e.pattern <= base }

  /** Entry `k` has the longest prefix of the call, and is the first to have it. */
  predicate HasLongestPrefix(es: seq<Entry>, base: string, k: nat)
    requires k < |es|
  {
    && FitsCall(es[k], base)
    && (forall j | 0 <= j < |es| && FitsCall(es[j], base) :: |es[j].pattern| <= |es[k].pattern|)
    && (forall j | 0 <= j < k && FitsCall(es[j], base) :: |es[j].pattern| < |es[k].pattern|)
  }

  /** A pattern that fits is filed under that much of the call. */
  lemma FitIsFiled(es: seq<Entry>, base: string, k: nat) returns (at: nat)
    requires k < |es| && FitsCall(es[k], base)
    ensures at <= k && es[at].pattern == es[k].pattern == base[..|es[k].pattern|]
    ensures Filed(es, base[..|es[k].pattern|]) == Some(es[at].country)
  {
    at := FirstEncountered(es, es[k].pattern);
  }

  lemma FiledFits(es: seq<Entry>, base: string, length: nat) returns (at: nat)
    requires 0 < length <= |base| && Filed(es, base[..length]).Some?
    ensures at < |es| && FitsCall(es[at], base) && |es[at].pattern| == length
  {
    at := FirstEncountered(es, base[..length]);
  }

  lemma ScanFindsLongest(es: seq<Entry>, base: string, k: nat)
    requires k < |es| && HasLongestPrefix(es, base, k)
    ensures Scan(es, base).country == Some(es[k].country)
  {
    ScanIsLongest(es, base);
    var best := Scan(es, base);
    var at := FitIsFiled(es, base, k);
    if best.length > 0 {
      var j := FiledFits(es, base, best.length);
    }
  }

  lemma ScanFindsNone(es: seq<Entry>, base: string)
    requires forall k | 0 <= k < |es| :: !FitsCall(es[k], base)
    ensures Scan(es, base).country.None?
  {
    ScanIsLongest(es, base);
    if Scan(es, base).length > 0 {
      var j := FiledFits(es, base, Scan(es, base).length);
    }
  }

  lemma {:induction false} PartOfCall(part: string, suffix: string)
    requires '/' !in part
    ensures UpToSlash(part) == part && UpToSlash(part + "/" + suffix) == part
  {
    if part == "" {
      assert part + "/" + suffix == "/" + suffix;
    } else {
      PartOfCall(part[1..], suffix);
      assert (part + "/" + suffix)[1..] == part[1..] + "/" + suffix;
    }
  }

  /**
   * The country of a call, suffixed or not: that of the first entry naming the part before the slash; failing that,
   * that of the first entry with its longest prefix; failing both, none.
   */
  lemma LookupDecides(es: seq<Entry>, call: string, part: string, suffix: string)
    requires '/' !in part && (call == part || call == part + "/" + suffix)
    ensures forall k | 0 <= k < |es| && NamesCall(es, Upper(part), k) :: Reference(es, call) == Some(es[k].country)
    ensures (forall k | 0 <= k < |es| :: es[k].pattern != "=" + Upper(part)) ==>
              && (forall k | 0 <= k < |es| && HasLongestPrefix(es, Upper(part), k) ::
                    Reference(es, call) == Some(es[k].country))
              && ((forall k | 0 <= k < |es| :: !FitsCall(es[k], Upper(part))) ==> Reference(es, call).None?)
  {
    PartOfCall(part, suffix);
    var at := FirstEncountered(es, "=" + Upper(part));
    forall k | 0 <= k < |es| && NamesCall(es, Upper(part), k) ensures k == at {
    }
    forall k | 0 <= k < |es| && HasLongestPrefix(es, Upper(part), k)
      ensures Scan(es, Upper(part)).country == Some(es[k].country)
    {
      ScanFindsLongest(es, Upper(part), k);
    }
    if forall k | 0 <= k < |es| :: !FitsCall(es[k], Upper(part)) {
      ScanFindsNone(es, Upper(part));
    }
  }

  // ---- the trie ----------------------------------------------------------

  /** Nested dictionaries, laid out in one sequence; node 0 is the outermost. */
  datatype Node = Node(children: map<char, nat>, country: Option<Country>)

  const EMPTY := Node(map[], None)

  function Walk(nodes: seq<Node>, path: string): Option<nat> {
    if path == "" then Some(0)
    else
      match Walk(nodes, path[..|path| - 1])
      case None => None
      case Some(n) =>
        if n < |nodes| && path[|path| - 1] in nodes[n].children then Some(nodes[n].children[path[|path| - 1]]) else None
  }

  function Stored(nodes: seq<Node>, path: string): Option<Country> {
    match Walk(nodes, path)
    case Some(n) => if n < |nodes| then nodes[n].country else None
    case None => None
  }

  /** `paths[n]` spells the way to node `n`. */
  ghost predicate Shape(nodes: seq<Node>, paths: seq<string>) {
    && |paths| == |nodes| > 0
    && paths[0] == ""
    && forall n, c | 0 <= n < |nodes| && c in nodes[n].children ::
         nodes[n].children[c] < |nodes| && paths[nodes[n].children[c]] == paths[n] + [c]
  }

  lemma {:induction false} WalkSpells(nodes: seq<Node>, paths: seq<string>, path: string)
    requires Shape(nodes, paths)
    ensures Walk(nodes, path).Some? ==> Walk(nodes, path).value < |nodes| && paths[Walk(nodes, path).value] == path
  {
    if path != "" {
      WalkSpells(nodes, paths, path[..|path| - 1]);
      assert path == path[..|path| - 1] + [path[|path| - 1]];
    }
  }

  /** Nothing below a missing node: once the walk fails it fails for every longer path. */
  lemma {:induction false} WalkStaysLost(nodes: seq<Node>, path: string, k: nat)
    requires k <= |path| && Walk(nodes, path[..k]).None?
    ensures Walk(nodes, path).None?
    decreases |path| - k
  {
    if k < |path| {
      assert path[..k + 1][..k] == path[..k];
      WalkStaysLost(nodes, path, k + 1);
    } else {
      assert path[..k] == path;
    }
  }

  /** The nodes with a new empty child hung below node `n`. */
  function Grown(nodes: seq<Node>, n: nat, c: char): seq<Node>
    requires n < |nodes|
  {
    nodes[n := nodes[n].(children := nodes[n].children[c := |nodes|])] + [EMPTY]
  }

  lemma {:induction false} GrowingKeepsWalks(nodes: seq<Node>, paths: seq<string>, n: nat, c: char, path: string)
    requires Shape(nodes, paths) && n < |nodes| && c !in nodes[n].children
    ensures var before, after := Walk(nodes, path), Walk(Grown(nodes, n, c), path);
            && (before.Some? ==> after == before && before.value < |nodes|)
            && (before.None? ==> after.None? || after.value == |nodes|)
  {
    if path != "" {
      GrowingKeepsWalks(nodes, paths, n, c, path[..|path| - 1]);
      WalkSpells(nodes, paths, path[..|path| - 1]);
      WalkSpells(nodes, paths, path);
    }
  }

  /** What the trie files under each prefix, against the entries inserted so far. */
  ghost predicate Represents(nodes: seq<Node>, es: seq<Entry>) {
    forall p :: Stored(nodes, p) == Filed(es, p)
  }

  lemma StoredIsFiled(nodes: seq<Node>, es: seq<Entry>, p: string)
    requires Represents(nodes, es)
    ensures Stored(nodes, p) == Filed(es, p)
  {
  }

  ghost predicate SameContent(a: seq<Node>, b: seq<Node>) {
    forall p :: Stored(a, p) == Stored(b, p)
  }

  lemma GrowingKeepsContent(nodes: seq<Node>, paths: seq<string>, n: nat, c: char)
    requires Shape(nodes, paths) && n < |nodes| && c !in nodes[n].children
    ensures Shape(Grown(nodes, n, c), paths + [paths[n] + [c]])
    ensures SameContent(nodes, Grown(nodes, n, c))
  {
    forall p ensures Stored(nodes, p) == Stored(Grown(nodes, n, c), p) {
      GrowingKeepsWalks(nodes, paths, n, c, p);
    }
  }

  /** `setdefault` at the end of the path: only that path's country changes, and only if it had none. */
  function Filled(nodes: seq<Node>, n: nat, country: Country): seq<Node>
    requires n < |nodes|
  {
    if nodes[n].country.None? then nodes[n := nodes[n].(country := Some(country))] else nodes
  }

  lemma {:induction false} FillingKeepsWalks(nodes: seq<Node>, n: nat, country: Country, path: string)
    requires n < |nodes|
    ensures Walk(Filled(nodes, n, country), path) == Walk(nodes, path)
  {
    if path != "" {
      FillingKeepsWalks(nodes, n, country, path[..|path| - 1]);
    }
  }

  lemma FillingAddsEntry(nodes: seq<Node>, paths: seq<string>, es: seq<Entry>, n: nat, e: Entry)
    requires Shape(nodes, paths) && Represents(nodes, es)
    requires Walk(nodes, e.pattern) == Some(n) && n < |nodes| && !IsExact(e.pattern)
    ensures Shape(Filled(nodes, n, e.country), paths)
    ensures Represents(Filled(nodes, n, e.country), es + [e])
  {
    var after := Filled(nodes, n, e.country);
    assert (es + [e])[..|es|] == es;
    forall p ensures Stored(after, p) == Filed(es + [e], p) {
      FillingKeepsWalks(nodes, n, e.country, p);
      WalkSpells(nodes, paths, p);
      WalkSpells(nodes, paths, e.pattern);
      assert Stored(nodes, p) == Filed(es, p);
    }
  }

  lemma ExactEntryLeavesTrie(nodes: seq<Node>, es: seq<Entry>, e: Entry)
    requires Represents(nodes, es) && IsExact(e.pattern)
    ensures Represents(nodes, es + [e])
  {
    assert (es + [e])[..|es|] == es;
    forall p ensures Stored(nodes, p) == Filed(es + [e], p) {
      assert Stored(nodes, p) == Filed(es, p);
    }
  }

  /** The dictionary of exact calls, against the entries inserted so far. */
  ghost predicate Indexes(exact: map<string, Country>, es: seq<Entry>) {
    forall call :: First(es, "=" + call) == if call in exact then Some(exact[call]) else None
  }

  lemma EntryIndexed(exact: map<string, Country>, es: seq<Entry>, e: Entry)
    requires Indexes(exact, es)
    ensures var call := if IsExact(e.pattern) then e.pattern[1..] else "";
            Indexes(if !IsExact(e.pattern) || call in exact then exact else exact[call := e.country], es + [e])
  {
    assert (es + [e])[..|es|] == es;
    if IsExact(e.pattern) {
      assert e.pattern == "=" + e.pattern[1..];
    }
    forall call ensures ("=" + call == e.pattern) == (IsExact(e.pattern) && call == e.pattern[1..]) {
      assert ("=" + call)[1..] == call;
    }
  }

  class CtyDatabase {
    const entities: seq<Entity>
    var exact: map<string, Country>
    var nodes: seq<Node>
    ghost var paths: seq<string>

    /** The table holds exactly the entries `es`. */
    ghost predicate Holds(es: seq<Entry>)
      reads this
    {
      Shape(nodes, paths) && Represents(nodes, es) && Indexes(exact, es)
    }

    constructor (entities: seq<Entity>)
      ensures this.entities == entities && Holds(Entries(entities))
    {
      this.entities := entities;
      exact := map[];
      nodes, paths := [EMPTY], [""];
      new;
      forall p ensures Stored(nodes, p) == Filed([], p) {
        WalkSpells(nodes, paths, p);
      }
      var i := 0;
      while i < |entities|
        invariant 0 <= i <= |entities| && Holds(Entries(entities[..i]))
      {
        assert entities[..i + 1][..i] == entities[..i];
        AddEntity(entities[i], Entries(entities[..i]));
        i := i + 1;
      }
      assert entities[..i] == entities;
    }

    method AddEntity(entity: Entity, ghost es: seq<Entry>)
      requires Holds(es)
      modifies `exact, `nodes, `paths
      ensures Holds(es + EntriesOf(entity.country, entity.prefixes))
    {
      ghost var all := EntriesOf(entity.country, entity.prefixes);
      assert es + all[..0] == es;
      var j := 0;
      while j < |entity.prefixes|
        invariant 0 <= j <= |entity.prefixes| && Holds(es + all[..j])
      {
        var stored := entity.prefixes[j];
        ghost var e := Entry(stored, entity.country);
        assert es + all[..j + 1] == es + all[..j] + [e];
        EntryIndexed(exact, es + all[..j], e);
        if stored != "" && stored[0] == '=' {
          ExactEntryLeavesTrie(nodes, es + all[..j], e);
          if stored[1..] !in exact {
            exact := exact[stored[1..] := entity.country];
          }
        } else {
          Insert(stored, entity.country, es + all[..j]);
        }
        j := j + 1;
      }
      assert all[..j] == all;
    }

    /** Walk down the trie, adding the nodes that are missing, and file the country at the end. */
    method Insert(stored: string, country: Country, ghost es: seq<Entry>)
      requires Shape(nodes, paths) && Represents(nodes, es) && !IsExact(stored)
      modifies `nodes, `paths
      ensures Shape(nodes, paths) && Represents(nodes, es + [Entry(stored, country)])
    {
      var node := 0;
      var i := 0;
      while i < |stored|
        invariant 0 <= i <= |stored| && node < |nodes|
        invariant Shape(nodes, paths) && Represents(nodes, es)
        invariant Walk(nodes, stored[..i]) == Some(node)
      {
        var ch := stored[i];
        assert stored[..i + 1][..i] == stored[..i];
        if ch !in nodes[node].children {
          GrowingKeepsWalks(nodes, paths, node, ch, stored[..i]);
          GrowingKeepsContent(nodes, paths, node, ch);
          paths := paths + [paths[node] + [ch]];
          nodes := Grown(nodes, node, ch);
        }
        node := nodes[node].children[ch];
        i := i + 1;
      }
      assert stored[..i] == stored;
      FillingAddsEntry(nodes, paths, es, node, Entry(stored, country));
      if nodes[node].country.None? {
        nodes := nodes[node := nodes[node].(country := Some(country))];
      }
    }

    /** The deepest country on the way down the trie. */
    method Descend(base: string) returns (found: Option<Country>)
      requires Holds(Entries(entities))
      ensures found == Scan(Entries(entities), base).country
    {
      ghost var es := Entries(entities);
      var node := 0;
      ghost var depth := 0;
      found := None;
      var i := 0;
      while i < |base|
        invariant 0 <= i <= |base| && node < |nodes|
        invariant Walk(nodes, base[..i]) == Some(node)
        invariant IsLongest(es, base, i, Best(depth, found))
      {
        var ch := base[i];
        assert base[..i + 1][..i] == base[..i];
        StoredIsFiled(nodes, es, base[..i + 1]);
        if ch !in nodes[node].children {
          NothingDeeper(nodes, es, base, i);
          break;
        }
        OneLonger(es, base, i, Best(depth, found));
        node := nodes[node].children[ch];
        if nodes[node].country.Some? {
          found := nodes[node].country;
          depth := i + 1;
        }
        i := i + 1;
      }
      LongestIsScan(es, base, Best(depth, found));
    }

    /** The dictionary first, then the trie: the same answer as the scan. */
    method Lookup(call: string) returns (found: Option<Country>)
      requires Holds(Entries(entities))
      ensures found == Reference(Entries(entities), call)
    {
      var base := Upper(UpToSlash(call));
      if base in exact {
        return Some(exact[base]);
      }
      found := Descend(base);
    }
  }

  lemma NothingDeeper(nodes: seq<Node>, es: seq<Entry>, base: string, i: nat)
    requires Represents(nodes, es) && i < |base| && Walk(nodes, base[..i + 1]).None?
    ensures forall l | i < l <= |base| :: Filed(es, base[..l]).None?
  {
    forall l | i < l <= |base| ensures Filed(es, base[..l]).None? {
      assert base[..l][..i + 1] == base[..i + 1];
      WalkStaysLost(nodes, base[..l], i + 1);
      assert Stored(nodes, base[..l]) == Filed(es, base[..l]);
    }
  }
}
