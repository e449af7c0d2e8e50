/** Choosing the component to develop (src/commands/dev.ts,
    `getAvailableComponents` and `selectComponent`): the component
    directories under `packages/`, sorted most recently used first, and the
    resolution of the answer typed at the prompt. The directory listing,
    `localeCompare` and the typed answer are inputs. */
module DevSelect {
  import opened Wrappers
  import opened Strings

  // ---------------------------------------------------------------------
  // getAvailableComponents

  /** One entry of `fs.readdir(packages)` with what `fs.stat` says of it. */
  datatype Entry = Entry(name: string, isDirectory: bool)

  /** The filter of `getAvailableComponents`: a directory whose name does
      not start with `.` and is neither `utils` nor `styles`. */
  predicate IsComponentDir(e: Entry) {
    e.isDirectory && !StartsWith(e.name, ".") && e.name != "utils" && e.name != "styles"
  }

  /** The names of the component directories, in listing order. */
  function Components(entries: seq<Entry>): seq<string> {
    if entries == [] then []
    else
      var last := entries[|entries| - 1];
      Components(entries[..|entries| - 1]) + (if IsComponentDir(last) then [last.name] else [])
  }

  /** `getAvailableComponents()`: `listing` is `None` when `packages/` does
      not exist, and the entries of the directory otherwise. */
  method GetAvailableComponents(listing: Option<seq<Entry>>) returns (components: seq<string>)
    ensures listing.None? ==> components == []
    ensures listing.Some? ==> components == Components(listing.value)
  {
    components := [];
    if listing.None? {
      return;
    }
    var dirs := listing.value;
    var i := 0;
    while i < |dirs|
      invariant 0 <= i <= |dirs|
      invariant components == Components(dirs[..i])
    {
      var dir := dirs[i];
      assert dirs[..i + 1][..i] == dirs[..i];
      if dir.isDirectory && !StartsWith(dir.name, ".") && dir.name != "utils" && dir.name != "styles" {
        components := components + [dir.name];
      }
      i := i + 1;
    }
    assert dirs[..i] == dirs;
  }

  /** A name is listed exactly when some entry of that name passes the
      filter. */
  lemma {:induction false} ComponentsExactly(entries: seq<Entry>, name: string)
    ensures name in Components(entries) <==> exists e :: e in entries && IsComponentDir(e) && e.name == name
    decreases |entries|
  {
    if entries != [] {
      var init := entries[..|entries| - 1];
      var last := entries[|entries| - 1];
      ComponentsExactly(init, name);
      assert entries == init + [last];
      if name in Components(entries) && name !in Components(init) {
        assert IsComponentDir(last) && last.name == name;
      }
      if e :| e in entries && IsComponentDir(e) && e.name == name {
        if e != last {
          assert e in init;
        }
      }
    }
  }

  /** Listing order is kept: of two listed entries with different names,
      the earlier one comes first. */
  lemma {:induction false} ComponentsInListingOrder(entries: seq<Entry>, i: nat, j: nat)
    requires i < j < |entries|
    requires IsComponentDir(entries[i]) && IsComponentDir(entries[j])
    ensures exists a, b :: (0 <= a < b < |Components(entries)|
      && Components(entries)[a] == entries[i].name && Components(entries)[b] == entries[j].name)
    decreases |entries|
  {
    var init := entries[..|entries| - 1];
    var last := entries[|entries| - 1];
    var cs := Components(entries);
    var ci := Components(init);
    assert cs == ci + (if IsComponentDir(last) then [last.name] else []);
    if j == |entries| - 1 {
      assert init[i] == entries[i];
      ComponentsExactly(init, entries[i].name);
      var a := IndexOf(ci, entries[i].name);
      assert cs[a] == entries[i].name;
      assert cs[|ci|] == entries[j].name;
    } else {
      assert init[i] == entries[i] && init[j] == entries[j];
      ComponentsInListingOrder(init, i, j);
      var a, b :| 0 <= a < b < |ci| && ci[a] == entries[i].name && ci[b] == entries[j].name;
      assert cs[a] == ci[a] && cs[b] == ci[b];
    }
  }

  // ---------------------------------------------------------------------
  // The recency sort

  /** `localeCompare` is some total order on names: its sign flips when the
      arguments are swapped, and "not after" is transitive. */
  ghost predicate LocaleOrder(localeCompare: (string, string) -> int) {
    && (forall a, b :: localeCompare(a, b) > 0 ==> localeCompare(b, a) < 0)
    && (forall a, b, c :: localeCompare(a, b) <= 0 && localeCompare(b, c) <= 0 ==> localeCompare(a, c) <= 0)
  }

  /** The comparator of `selectComponent`: recent components first, by
      their position in the recent list, then the others by
      `localeCompare`. */
  function RecencyCompare(recent: seq<string>, localeCompare: (string, string) -> int, a: string, b: string): int {
    var ai := IndexOf(recent, a);
    var bi := IndexOf(recent, b);
    if ai == -1 && bi == -1 then localeCompare(a, b)
    else if ai == -1 then 1
    else if bi == -1 then -1
    else ai - bi
  }

  /** `a` may stay ahead of `b`. */
  predicate NotAfter(recent: seq<string>, localeCompare: (string, string) -> int, a: string, b: string) {
    RecencyCompare(recent, localeCompare, a, b) <= 0
  }

  /** The comparator of `selectComponent` as a relation. */
  function ByRecency(recent: seq<string>, localeCompare: (string, string) -> int): (string, string) -> bool {
    (a, b) => NotAfter(recent, localeCompare, a, b)
  }

  /** `le` is total and transitive: a consistent comparator. */
  ghost predicate TotalPreorder(le: (string, string) -> bool) {
    && (forall a, b :: le(a, b) || le(b, a))
    && (forall a, b, c :: le(a, b) && le(b, c) ==> le(a, c))
  }

  /** Stable insertion of `x`, which came before every element of `s`. */
  function Insert(le: (string, string) -> bool, x: string, s: seq<string>): (r: seq<string>)
    ensures |r| == |s| + 1
  {
    if s == [] then [x]
    else if le(x, s[0]) then [x] + s
    else [s[0]] + Insert(le, x, s[1..])
  }

  /** `Array.prototype.sort` with a comparator: stable, like this
      insertion sort. */
  function SortBy(le: (string, string) -> bool, xs: seq<string>): (r: seq<string>)
    ensures |r| == |xs|
  {
    if xs == [] then []
    else Insert(le, xs[0], SortBy(le, xs[1..]))
  }

  /** `[...components].sort(comparator)` in `selectComponent`. */
  function SortByRecency(recent: seq<string>, localeCompare: (string, string) -> int, xs: seq<string>): seq<string> {
    SortBy(ByRecency(recent, localeCompare), xs)
  }

  predicate SortedBy(le: (string, string) -> bool, s: seq<string>) {
    forall i, j :: 0 <= i < j < |s| ==> le(s[i], s[j])
  }

  /** The comparator is total and transitive given that `localeCompare`
      is an order. */
  lemma {:induction false} RecencyIsPreorder(recent: seq<string>, localeCompare: (string, string) -> int)
    requires LocaleOrder(localeCompare)
    ensures TotalPreorder(ByRecency(recent, localeCompare))
  {
    var le := ByRecency(recent, localeCompare);
    forall a, b
      ensures le(a, b) || le(b, a)
    {
      CompareTotal(recent, localeCompare, a, b);
    }
    forall a, b, c | le(a, b) && le(b, c)
      ensures le(a, c)
    {
      CompareTransitive(recent, localeCompare, a, b, c);
    }
  }

  lemma CompareTotal(recent: seq<string>, localeCompare: (string, string) -> int, a: string, b: string)
    requires LocaleOrder(localeCompare)
    ensures NotAfter(recent, localeCompare, a, b) || NotAfter(recent, localeCompare, b, a)
  {
  }

  lemma CompareTransitive(recent: seq<string>, localeCompare: (string, string) -> int, a: string, b: string, c: string)
    requires LocaleOrder(localeCompare)
    requires NotAfter(recent, localeCompare, a, b) && NotAfter(recent, localeCompare, b, c)
    ensures NotAfter(recent, localeCompare, a, c)
  {
  }

  lemma {:induction false} InsertPermutes(le: (string, string) -> bool, x: string, s: seq<string>)
    ensures multiset(Insert(le, x, s)) == multiset{x} + multiset(s)
    decreases |s|
  {
    if s != [] && !le(x, s[0]) {
      InsertPermutes(le, x, s[1..]);
      assert s == [s[0]] + s[1..];
    }
  }

  /** The sort only reorders. */
  lemma {:induction false} SortPermutes(le: (string, string) -> bool, xs: seq<string>)
    ensures multiset(SortBy(le, xs)) == multiset(xs)
    decreases |xs|
  {
    if xs != [] {
      SortPermutes(le, xs[1..]);
      InsertPermutes(le, xs[0], SortBy(le, xs[1..]));
      assert xs == [xs[0]] + xs[1..];
    }
  }

  /** A head no later than every element of a sorted list keeps it sorted. */
  lemma ConsSorted(le: (string, string) -> bool, h: string, rest: seq<string>)
    requires SortedBy(le, rest)
    requires forall j :: 0 <= j < |rest| ==> le(h, rest[j])
    ensures SortedBy(le, [h] + rest)
  {
    var r := [h] + rest;
    forall i, j | 0 <= i < j < |r|
      ensures le(r[i], r[j])
    {
      if i == 0 {
        assert r[j] == rest[j - 1];
      } else {
        assert r[i] == rest[i - 1] && r[j] == rest[j - 1];
      }
    }
  }

  /** Every element of `Insert(le, x, tail)` is `x` or from `tail`. */
  lemma InsertBound(le: (string, string) -> bool, h: string, x: string, tail: seq<string>)
    requires le(h, x)
    requires forall k :: 0 <= k < |tail| ==> le(h, tail[k])
    ensures forall j :: 0 <= j < |Insert(le, x, tail)| ==> le(h, Insert(le, x, tail)[j])
  {
    var rest := Insert(le, x, tail);
    InsertPermutes(le, x, tail);
    forall j | 0 <= j < |rest|
      ensures le(h, rest[j])
    {
      assert rest[j] in multiset(rest);
      if rest[j] != x {
        assert rest[j] in multiset(tail);
        var k :| 0 <= k < |tail| && tail[k] == rest[j];
      }
    }
  }

  lemma {:induction false} InsertSorted(le: (string, string) -> bool, x: string, s: seq<string>)
    requires TotalPreorder(le)
    requires SortedBy(le, s)
    ensures SortedBy(le, Insert(le, x, s))
    decreases |s|
  {
    if s == [] {
    } else if le(x, s[0]) {
      forall j | 0 <= j < |s|
        ensures le(x, s[j])
      {
        if j > 0 {
          assert le(s[0], s[j]);
        }
      }
      ConsSorted(le, x, s);
    } else {
      var tail := s[1..];
      assert SortedBy(le, tail) by {
        forall i, j | 0 <= i < j < |tail| ensures le(tail[i], tail[j]) {
          assert tail[i] == s[i + 1] && tail[j] == s[j + 1];
        }
      }
      InsertSorted(le, x, tail);
      forall k | 0 <= k < |tail|
        ensures le(s[0], tail[k])
      {
        assert tail[k] == s[k + 1];
      }
      InsertBound(le, s[0], x, tail);
      ConsSorted(le, s[0], Insert(le, x, tail));
    }
  }

  /** With a consistent comparator the result is in order. */
  lemma {:induction false} SortSorted(le: (string, string) -> bool, xs: seq<string>)
    requires TotalPreorder(le)
    ensures SortedBy(le, SortBy(le, xs))
    decreases |xs|
  {
    if xs != [] {
      SortSorted(le, xs[1..]);
      InsertSorted(le, xs[0], SortBy(le, xs[1..]));
    }
  }

  /** What the sorted list promises: it is a permutation of the components;
      every recent component comes before every other one; recent ones
      follow the recent list; the others follow `localeCompare`. */
  lemma RecencyOrder(recent: seq<string>, localeCompare: (string, string) -> int, xs: seq<string>)
    requires LocaleOrder(localeCompare)
    ensures var s := SortByRecency(recent, localeCompare, xs);
      && multiset(s) == multiset(xs)
      && forall i, j :: 0 <= i < j < |s| ==>
        && (s[j] in recent ==> s[i] in recent)
        && (s[i] in recent && s[j] in recent ==> IndexOf(recent, s[i]) <= IndexOf(recent, s[j]))
        && (s[i] !in recent && s[j] !in recent ==> localeCompare(s[i], s[j]) <= 0)
  {
    RecencyIsPreorder(recent, localeCompare);
    SortPermutes(ByRecency(recent, localeCompare), xs);
    SortSorted(ByRecency(recent, localeCompare), xs);
  }

  // ---------------------------------------------------------------------
  // Resolving the answer

  /** `components.find(c => c.toLowerCase().includes(needle))`. */
  function FindMatch(components: seq<string>, needle: string): (r: Option<string>)
    ensures r.Some? ==> r.value in components && Contains(Lower(r.value), needle)
    ensures r.None? <==> forall c :: c in components ==> !Contains(Lower(c), needle)
    ensures r.Some? ==> exists k :: (0 <= k < |components| && components[k] == r.value
      && forall j :: 0 <= j < k ==> !Contains(Lower(components[j]), needle))
  {
    if components == [] then None
    else if Contains(Lower(components[0]), needle) then Some(components[0])
    else
      var r := FindMatch(components[1..], needle);
      if r.Some? then
        var k :| 0 <= k < |components[1..]| && components[1..][k] == r.value
          && forall j :: 0 <= j < k ==> !Contains(Lower(components[1..][j]), needle);
        assert components[k + 1] == r.value;
        r
      else r
  }

  /** The callback of `rl.question`: a number in range picks from the sorted
      list, then an exact name, then the first component, in listing order,
      whose lower-case name contains the lower-case answer. */
  function ResolveAnswer(answer: string, components: seq<string>, sorted: seq<string>): Option<string> {
    var num := ParseInt(answer);
    if num.Some? && num.value > 0 && num.value <= |sorted| then Some(sorted[num.value - 1])
    else if answer in components then Some(answer)
    else FindMatch(components, Lower(answer))
  }

  /** `selectComponent()` given the components, the history's recent list
      and the answer; `None` stands for `undefined`. */
  function SelectComponent(recent: seq<string>, localeCompare: (string, string) -> int,
                           components: seq<string>, answer: string): Option<string> {
    if components == [] then None
    else ResolveAnswer(answer, components, SortByRecency(recent, localeCompare, components))
  }

  /** Whatever is selected is one of the available components. */
  lemma SelectionIsAvailable(recent: seq<string>, localeCompare: (string, string) -> int,
                             components: seq<string>, answer: string)
    ensures var r := SelectComponent(recent, localeCompare, components, answer);
      r.Some? ==> r.value in components
  {
    var sorted := SortByRecency(recent, localeCompare, components);
    SortPermutes(ByRecency(recent, localeCompare), components);
    var num := ParseInt(answer);
    if components != [] && num.Some? && 0 < num.value <= |sorted| {
      assert sorted[num.value - 1] in multiset(sorted);
    }
  }

  /** Typing the position `n` (as digits, possibly padded with leading
      whitespace and followed by anything but a digit) selects the `n`-th
      entry of the sorted list. */
  lemma AnswerByNumber(recent: seq<string>, localeCompare: (string, string) -> int,
                       components: seq<string>, pad: string, n: nat, tail: string)
    requires 1 <= n <= |components|
    requires forall i :: 0 <= i < |pad| ==> IsJsWhitespace(pad[i])
    requires tail == [] || !IsDigit(tail[0])
    ensures SelectComponent(recent, localeCompare, components, pad + (DecimalString(n) + tail))
         == Some(SortByRecency(recent, localeCompare, components)[n - 1])
  {
    var answer := pad + (DecimalString(n) + tail);
    ParseIntOfPaddedNumeral(pad, n, tail);
    var sorted := SortByRecency(recent, localeCompare, components);
    assert ResolveAnswer(answer, components, sorted) == Some(sorted[n - 1]);
  }

  /** An answer that is not a number in range but names a component
      selects that component. */
  lemma AnswerByName(recent: seq<string>, localeCompare: (string, string) -> int,
                     components: seq<string>, answer: string)
    requires answer in components
    requires var num := ParseInt(answer); !(num.Some? && 0 < num.value <= |components|)
    ensures SelectComponent(recent, localeCompare, components, answer) == Some(answer)
  {
  }

  /** Otherwise (no number in range, `0`, `-1` and `12ab` with three
      components included, and no exact name) the first component, in
      listing order (not sorted order), whose name contains the answer
      ignoring ASCII case, and nothing when there is none. */
  lemma AnswerBySubstring(recent: seq<string>, localeCompare: (string, string) -> int,
                          components: seq<string>, answer: string)
    requires answer !in components
    requires var num := ParseInt(answer); !(num.Some? && 0 < num.value <= |components|)
    ensures var r := SelectComponent(recent, localeCompare, components, answer);
      && (r.None? <==> forall c :: c in components ==> !Contains(Lower(c), Lower(answer)))
      && (r.Some? ==> exists k :: (0 <= k < |components| && components[k] == r.value
           && Contains(Lower(r.value), Lower(answer))
           && forall j :: 0 <= j < k ==> !Contains(Lower(components[j]), Lower(answer))))
  {
  }

  /** Pressing Enter alone picks the first component in listing order. */
  lemma EmptyAnswerPicksFirst(recent: seq<string>, localeCompare: (string, string) -> int, components: seq<string>)
    requires components != [] && "" !in components
    ensures SelectComponent(recent, localeCompare, components, "") == Some(components[0])
  {
    var sorted := SortByRecency(recent, localeCompare, components);
    ParseIntOfEmpty();
    assert Lower("") == "";
    ContainsEmpty(Lower(components[0]));
    assert FindMatch(components, "") == Some(components[0]);
    assert ResolveAnswer("", components, sorted) == Some(components[0]);
  }
}
