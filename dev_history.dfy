/** The most-recently-used record of the `dev` command
    (src/commands/dev.ts, `DevHistory`, `loadDevHistory`, `saveDevHistory`):
    the component developed last and up to five recently developed ones,
    newest first, kept in memory by the dev server and mirrored to
    `.material-dev-history.json` in the working directory. */
module DevHistory {
  import opened Wrappers

  datatype History = History(lastComponent: Option<string>, recentComponents: seq<string>)

  /** How many recent components are kept. */
  const RecentLimit: nat := 5

  const EmptyHistory := History(None, [])

  /** The history file as `loadDevHistory` finds it: absent, present but
      not readable as JSON, or holding a record. */
  datatype HistoryFile = Missing | Unreadable | Stored(history: History)

  /** `loadDevHistory`: the stored record, or an empty history when the
      file is absent or cannot be read. */
  function LoadDevHistory(f: HistoryFile): (h: History)
    ensures f.Stored? ==> h == f.history
    ensures !f.Stored? ==> h.lastComponent.None? && h.recentComponents == []
  {
    if f.Stored? then f.history else EmptyHistory
  }

  /** `xs.filter(c => c !== x)`. */
  function Without(xs: seq<string>, x: string): (r: seq<string>)
    ensures x !in r
    ensures forall y :: y in r <==> y in xs && y != x
    ensures |r| <= |xs|
    ensures x !in xs ==> r == xs
  {
    if xs == [] then []
    else (if xs[0] == x then [] else [xs[0]]) + Without(xs[1..], x)
  }

  /** The recent list after developing `c`: `c` moved (or added) to the
      front, the rest in their old order, cut to five entries. */
  function Remember(recent: seq<string>, c: string): seq<string> {
    var moved := [c] + Without(recent, c);
    if |moved| <= RecentLimit then moved else moved[..RecentLimit]
  }

  /** The dev server's in-memory history and the file that mirrors it. */
  class HistoryStore {
    var history: History
    var file: HistoryFile

    /** The constructor of the dev server reads the file once. */
    constructor (f: HistoryFile)
      ensures file == f
      ensures history == LoadDevHistory(f)
    {
      file := f;
      history := LoadDevHistory(f);
    }

    /** `saveDevHistory(component)`: the in-memory record is updated first;
        writing the file may fail (`writable` false), which is only
        logged, and then the file keeps its old content. */
    method SaveDevHistory(component: string, writable: bool)
      modifies this
      ensures history == History(Some(component), Remember(old(history.recentComponents), component))
      ensures file == (if writable then Stored(history) else old(file))
    {
      var recent := Without(history.recentComponents, component);
      recent := [component] + recent;
      history := history.(lastComponent := Some(component));
      history := history.(recentComponents := if |recent| <= RecentLimit then recent else recent[..RecentLimit]);
      if writable {
        file := Stored(history);
      }
    }
  }

  // ---------------------------------------------------------------------
  // Properties

  /** After `saveDevHistory(c)`: `c` is first, occurs exactly once, and
      the list holds at most five entries. */
  lemma RememberFront(recent: seq<string>, c: string)
    ensures var r := Remember(recent, c);
      && 1 <= |r| <= RecentLimit
      && r[0] == c
      && forall i :: 1 <= i < |r| ==> r[i] != c
  {
    var moved := [c] + Without(recent, c);
    var r := Remember(recent, c);
    forall i | 1 <= i < |r|
      ensures r[i] != c
    {
      assert r[i] == moved[i] == Without(recent, c)[i - 1];
    }
  }

  /** The other entries keep their relative order: what follows `c` is the
      old list without `c`, cut where the limit falls. Nothing else is
      dropped. */
  lemma RememberKeepsOrder(recent: seq<string>, c: string)
    ensures var r := Remember(recent, c);
      var others := Without(recent, c);
      && r[1..] == others[..|r| - 1]
      && |r| == (if |others| < RecentLimit then |others| + 1 else RecentLimit)
  {
  }

  /** In a list without duplicates, a previous entry other than `c`
      survives exactly when fewer than four other entries were ahead of it. */
  lemma {:induction false} RememberDropsOnlyTheTail(recent: seq<string>, c: string, k: nat)
    requires Distinct(recent)
    requires k < |Without(recent, c)|
    ensures Without(recent, c)[k] in Remember(recent, c) <==> k < RecentLimit - 1
  {
    var others := Without(recent, c);
    var r := Remember(recent, c);
    RememberKeepsOrder(recent, c);
    WithoutKeepsDistinct(recent, c);
    if k < RecentLimit - 1 {
      assert r[k + 1] == others[k];
    }
  }

  /** A list without duplicates stays without duplicates. */
  lemma {:induction false} RememberKeepsDistinct(recent: seq<string>, c: string)
    requires Distinct(recent)
    ensures Distinct(Remember(recent, c))
  {
    WithoutKeepsDistinct(recent, c);
    var others := Without(recent, c);
    var moved := [c] + others;
    forall i, j | 0 <= i < j < |moved|
      ensures moved[i] != moved[j]
    {
      if i == 0 {
        assert moved[j] == others[j - 1];
      } else {
        assert moved[i] == others[i - 1] && moved[j] == others[j - 1];
      }
    }
  }

  lemma {:induction false} WithoutKeepsDistinct(xs: seq<string>, x: string)
    requires Distinct(xs)
    ensures Distinct(Without(xs, x))
    decreases |xs|
  {
    if xs != [] {
      var tail := xs[1..];
      assert Distinct(tail) by {
        forall i, j | 0 <= i < j < |tail| ensures tail[i] != tail[j] {
          assert tail[i] == xs[i + 1] && tail[j] == xs[j + 1];
        }
      }
      WithoutKeepsDistinct(tail, x);
      var rest := Without(tail, x);
      assert xs[0] !in tail;
      assert xs[0] !in rest;
      var r := Without(xs, x);
      if xs[0] != x {
        assert r == [xs[0]] + rest;
        forall i, j | 0 <= i < j < |r| ensures r[i] != r[j] {
          if i == 0 {
            assert r[j] == rest[j - 1];
          } else {
            assert r[i] == rest[i - 1] && r[j] == rest[j - 1];
          }
        }
      } else {
        assert r == rest;
      }
    }
  }

  /** Developing the same component twice in a row changes nothing the
      second time. */
  lemma RememberIdempotent(recent: seq<string>, c: string)
    ensures Remember(Remember(recent, c), c) == Remember(recent, c)
  {
    var r := Remember(recent, c);
    RememberFront(recent, c);
    assert r == [c] + r[1..];
    assert c !in r[1..];
    WithoutHead(c, r[1..]);
  }

  lemma WithoutHead(c: string, rest: seq<string>)
    requires c !in rest
    ensures Without([c] + rest, c) == rest
  {
    assert ([c] + rest)[1..] == rest;
  }

  /** Across two runs of the dev server: the first saves `c`; the second
      reads the file back. When the file was written, the second run starts
      with the first run's history, `c` first; when writing failed, it
      starts from the old file as if nothing had been developed. */
  method SaveThenReload(f: HistoryFile, c: string, writable: bool) returns (s: HistoryStore, t: HistoryStore)
    ensures fresh(s) && fresh(t)
    ensures writable ==> t.history == s.history && t.history.lastComponent == Some(c)
                         && 1 <= |t.history.recentComponents| <= RecentLimit && t.history.recentComponents[0] == c
    ensures !writable ==> t.history == LoadDevHistory(f)
  {
    s := new HistoryStore(f);
    s.SaveDevHistory(c, writable);
    RememberFront(LoadDevHistory(f).recentComponents, c);
    t := new HistoryStore(s.file);
  }
}
