/**
 Reading an export: from the documents a download carried to the lists an execution records.

 A document arrives here already parsed, as its entries or as one not recognised as a list.
 */
module Export {
  import opened Schema
  import opened Snapshots
  import opened Operations
  import Text

  datatype Follower = Follower(username: User, href: string, followedAt: Option<Time>)

  // ---------------------------------------------------------------- repeats

  /** What is known of one name, each part from the first copy that has it. */
  datatype Entry = Entry(href: string, followedAt: Option<Time>)

  function EntryOf(f: Follower): Entry { Entry(f.href, f.followedAt) }

  function Richer(a: Entry, b: Entry): Entry {
    Entry(if a.href == "" then b.href else a.href, if a.followedAt.None? then b.followedAt else a.followedAt)
  }

  function Remember(m: map<User, Entry>, u: User, e: Entry): map<User, Entry> {
    m[u := if u in m then Richer(m[u], e) else e]
  }

  function Remembered(followers: seq<Follower>): map<User, Entry> {
    if followers == [] then map[]
    else
      var f := followers[|followers| - 1];
      Remember(Remembered(followers[..|followers| - 1]), f.username, EntryOf(f))
  }

  function Usernames(followers: seq<Follower>): (names: seq<User>)
    ensures |names| == |followers| && forall i | 0 <= i < |names| :: names[i] == followers[i].username
  {
    seq(|followers|, i requires 0 <= i < |followers| => followers[i].username)
  }

  /** `out` holds exactly the names of `m`, once each and in order, with what `m` knows of them. */
  ghost predicate IsListing(m: map<User, Entry>, out: seq<Follower>) {
    && Text.Increasing(Usernames(out))
    && (forall u :: u in Usernames(out) <==> u in m)
    && (forall i | 0 <= i < |out| :: out[i].username in m && EntryOf(out[i]) == m[out[i].username])
  }

  lemma ListingUnique(m: map<User, Entry>, a: seq<Follower>, b: seq<Follower>)
    requires IsListing(m, a) && IsListing(m, b)
    ensures a == b
  {
    Text.IncreasingUnique(Usernames(a), Usernames(b));
    forall i | 0 <= i < |a|
      ensures a[i] == b[i]
    {
      assert Usernames(a)[i] == Usernames(b)[i];
    }
  }

  lemma {:induction false} ListingExists(m: map<User, Entry>) returns (out: seq<Follower>)
    ensures IsListing(m, out)
    decreases m.Keys
  {
    if m.Keys == {} {
      out := [];
    } else {
      var least := Text.LeastName(m.Keys);
      var rest := ListingExists(m - {least});
      out := [Follower(least, m[least].href, m[least].followedAt)] + rest;
      assert Usernames(out) == [least] + Usernames(rest);
    }
  }

  lemma SomeListing(m: map<User, Entry>)
    ensures exists out :: IsListing(m, out)
  {
    var out := ListingExists(m);
  }

  /** The list with repeats collapsed, in order of name. */
  ghost function Deduped(followers: seq<Follower>): (out: seq<Follower>)
    ensures IsListing(Remembered(followers), out)
  {
    SomeListing(Remembered(followers));
    var out :| IsListing(Remembered(followers), out);
    out
  }

  /** `out` has one element for each name of `m`, and `seen` says where. */
  ghost predicate Collapsed(m: map<User, Entry>, seen: map<User, nat>, out: seq<Follower>) {
    && seen.Keys == m.Keys
    && (forall u | u in seen :: seen[u] < |out| && out[seen[u]].username == u)
    && (forall j | 0 <= j < |out| :: out[j].username in seen && seen[out[j].username] == j)
    && (forall j | 0 <= j < |out| && out[j].username in m :: EntryOf(out[j]) == m[out[j].username])
  }

  lemma CollapsedNew(m: map<User, Entry>, seen: map<User, nat>, out: seq<Follower>, f: Follower)
    requires Collapsed(m, seen, out) && f.username !in seen
    ensures Collapsed(Remember(m, f.username, EntryOf(f)), seen[f.username := |out|], out + [f])
  {
  }

  lemma CollapsedAgain(m: map<User, Entry>, seen: map<User, nat>, out: seq<Follower>, f: Follower, kept: Follower)
    requires Collapsed(m, seen, out) && f.username in seen && kept.username == f.username
    requires EntryOf(kept) == Richer(EntryOf(out[seen[f.username]]), EntryOf(f))
    ensures Collapsed(Remember(m, f.username, EntryOf(f)), seen, out[seen[f.username] := kept])
  {
  }

  method Dedupe(followers: seq<Follower>) returns (out: seq<Follower>)
    ensures out == Deduped(followers)
  {
    var seen: map<User, nat> := map[];
    out := [];
    for i := 0 to |followers|
      invariant Collapsed(Remembered(followers[..i]), seen, out)
    {
      var f := followers[i];
      assert followers[..i + 1][..i] == followers[..i];
      if f.username in seen {
        var idx := seen[f.username];
        var kept := out[idx];
        // A field the first copy left empty is taken from this one.
        if kept.href == "" && f.href != "" {
          kept := kept.(href := f.href);
        }
        if kept.followedAt.None? && f.followedAt.Some? {
          kept := kept.(followedAt := f.followedAt);
        }
        CollapsedAgain(Remembered(followers[..i]), seen, out, f, kept);
        out := out[idx := kept];
      } else {
        CollapsedNew(Remembered(followers[..i]), seen, out, f);
        seen := seen[f.username := |out|];
        out := out + [f];
      }
    }
    assert followers[..|followers|] == followers;
    out := SortByName(out, Remembered(followers));
    ListingUnique(Remembered(followers), out, Deduped(followers));
  }

  method SortByName(entries: seq<Follower>, ghost m: map<User, Entry>) returns (sorted: seq<Follower>)
    requires forall i, j | 0 <= i < j < |entries| :: entries[i].username != entries[j].username
    requires forall u :: u in m <==> exists i :: 0 <= i < |entries| && entries[i].username == u
    requires forall i | 0 <= i < |entries| :: entries[i].username in m && EntryOf(entries[i]) == m[entries[i].username]
    ensures IsListing(m, sorted)
  {
    sorted := [];
    for i := 0 to |entries|
      invariant Text.Increasing(Usernames(sorted))
      invariant forall f :: f in sorted <==> f in entries[..i]
    {
      sorted := InsertByName(sorted, entries[i]);
    }
    assert entries[..|entries|] == entries;
    forall u
      ensures u in Usernames(sorted) <==> u in m
    {
      if u in Usernames(sorted) {
        var j :| 0 <= j < |sorted| && Usernames(sorted)[j] == u;
        assert sorted[j] in entries;
      }
      if u in m {
        var j :| 0 <= j < |entries| && entries[j].username == u;
        assert entries[j] in sorted;
        var k :| 0 <= k < |sorted| && sorted[k] == entries[j];
        assert Usernames(sorted)[k] == u;
      }
    }
    forall j | 0 <= j < |sorted|
      ensures sorted[j].username in m && EntryOf(sorted[j]) == m[sorted[j].username]
    {
      assert sorted[j] in entries;
    }
  }

  method InsertByName(sorted: seq<Follower>, f: Follower) returns (r: seq<Follower>)
    requires Text.Increasing(Usernames(sorted))
    requires forall g | g in sorted :: g.username != f.username
    ensures Text.Increasing(Usernames(r))
    ensures forall g :: g in r <==> g in sorted || g == f
  {
    var i := 0;
    while i < |sorted| && Text.Less(sorted[i].username, f.username)
      invariant 0 <= i <= |sorted|
      invariant forall j | 0 <= j < i :: Text.Less(sorted[j].username, f.username)
    {
      i := i + 1;
    }
    InsertedInOrder(sorted, f, i);
    r := sorted[..i] + [f] + sorted[i..];
  }

  lemma InsertedInOrder(sorted: seq<Follower>, f: Follower, i: nat)
    requires Text.Increasing(Usernames(sorted)) && i <= |sorted|
    requires forall g | g in sorted :: g.username != f.username
    requires forall j | 0 <= j < i :: Text.Less(sorted[j].username, f.username)
    requires i < |sorted| ==> !Text.Less(sorted[i].username, f.username)
    ensures Text.Increasing(Usernames(sorted[..i] + [f] + sorted[i..]))
    ensures forall g :: g in sorted[..i] + [f] + sorted[i..] <==> g in sorted || g == f
  {
    hide Text.Less;
    var r, names := sorted[..i] + [f] + sorted[i..], Usernames(sorted);
    forall j | i <= j < |sorted|
      ensures Text.Less(f.username, sorted[j].username)
    {
      LaterIsGreater(sorted, f, i, j);
    }
    forall a, b | 0 <= a < b < |r|
      ensures Text.Less(Usernames(r)[a], Usernames(r)[b])
    {
      var x, y := if a < i then a else a - 1, if b < i then b else b - 1;
      if a != i && b != i {
        assert Text.Less(names[x], names[y]);
      }
    }
    forall g
      ensures g in r <==> g in sorted || g == f
    {
      assert sorted == sorted[..i] + sorted[i..];
    }
  }

  lemma LaterIsGreater(sorted: seq<Follower>, f: Follower, i: nat, j: nat)
    requires Text.Increasing(Usernames(sorted)) && i <= j < |sorted|
    requires forall g | g in sorted :: g.username != f.username
    requires !Text.Less(sorted[i].username, f.username)
    ensures Text.Less(f.username, sorted[j].username)
  {
    assert sorted[i] in sorted;
    Text.LessTrichotomy(sorted[i].username, f.username);
    if i < j {
      assert Text.Less(Usernames(sorted)[i], Usernames(sorted)[j]);
      Text.LessTransitive(f.username, sorted[i].username, sorted[j].username);
    }
  }

  // ---------------------------------------------------------------- what is kept of a repeat

  /** The first non-empty link recorded for a name. */
  function FirstHref(followers: seq<Follower>, u: User): string {
    if followers == [] then ""
    else if followers[0].username == u && followers[0].href != "" then followers[0].href
    else FirstHref(followers[1..], u)
  }

  /** The first follow time recorded for a name. */
  function FirstTime(followers: seq<Follower>, u: User): Option<Time> {
    if followers == [] then None
    else if followers[0].username == u && followers[0].followedAt.Some? then followers[0].followedAt
    else FirstTime(followers[1..], u)
  }

  lemma {:induction false} FirstSnoc(followers: seq<Follower>, f: Follower, u: User)
    ensures FirstHref(followers + [f], u) ==
              if FirstHref(followers, u) == "" && f.username == u then f.href else FirstHref(followers, u)
    ensures FirstTime(followers + [f], u) ==
              if FirstTime(followers, u).None? && f.username == u then f.followedAt else FirstTime(followers, u)
  {
    if followers != [] {
      FirstSnoc(followers[1..], f, u);
      assert (followers + [f])[1..] == followers[1..] + [f];
    } else {
      assert (followers + [f])[1..] == [];
    }
  }

  /** A name is kept with the first link and the first follow time any of its copies carries. */
  lemma {:induction false} RememberedIsFirst(followers: seq<Follower>, u: User)
    ensures u in Remembered(followers) <==> u in Usernames(followers)
    ensures u in Remembered(followers) ==>
              Remembered(followers)[u] == Entry(FirstHref(followers, u), FirstTime(followers, u))
    ensures u !in Remembered(followers) ==> FirstHref(followers, u) == "" && FirstTime(followers, u) == None
  {
    if followers != [] {
      var front, f := followers[..|followers| - 1], followers[|followers| - 1];
      RememberedIsFirst(front, u);
      FirstSnoc(front, f, u);
      assert front + [f] == followers;
      assert Usernames(followers) == Usernames(front) + [f.username];
    }
  }

  /** Each name once and in order, no name lost or added, each with the first link and time any copy carries. */
  lemma DedupedIs(followers: seq<Follower>)
    ensures var out := Deduped(followers);
            && Text.Increasing(Usernames(out))
            && (forall u :: u in Usernames(out) <==> u in Usernames(followers))
            && (forall i | 0 <= i < |out| :: out[i].href == FirstHref(followers, out[i].username)
                                             && out[i].followedAt == FirstTime(followers, out[i].username))
  {
    var out := Deduped(followers);
    forall u
      ensures u in Usernames(out) <==> u in Usernames(followers)
    {
      RememberedIsFirst(followers, u);
    }
    forall i | 0 <= i < |out|
      ensures out[i].href == FirstHref(followers, out[i].username)
              && out[i].followedAt == FirstTime(followers, out[i].username)
    {
      RememberedIsFirst(followers, out[i].username);
    }
  }

  // ---------------------------------------------------------------- splitting a list into parts

  function Merged(a: map<User, Entry>, b: map<User, Entry>): map<User, Entry> {
    map u | u in a.Keys + b.Keys :: if u in a && u in b then Richer(a[u], b[u]) else if u in a then a[u] else b[u]
  }

  lemma MergeRemember(a: map<User, Entry>, b: map<User, Entry>, u: User, e: Entry)
    ensures Merged(a, Remember(b, u, e)) == Remember(Merged(a, b), u, e)
  {
  }

  lemma {:induction false} RememberedConcat(a: seq<Follower>, b: seq<Follower>)
    ensures Remembered(a + b) == Merged(Remembered(a), Remembered(b))
  {
    if b == [] {
      assert a + b == a;
    } else {
      var front, f := b[..|b| - 1], b[|b| - 1];
      RememberedConcat(a, front);
      assert (a + b)[..|a + b| - 1] == a + front;
      MergeRemember(Remembered(a), Remembered(front), f.username, EntryOf(f));
    }
  }

  /** A list without repeats is remembered as it is. */
  lemma ListingRemembered(m: map<User, Entry>, out: seq<Follower>)
    requires IsListing(m, out)
    ensures Remembered(out) == m
  {
    forall u
      ensures u in Remembered(out) <==> u in m
      ensures u in m ==> Remembered(out)[u] == m[u]
    {
      RememberedIsFirst(out, u);
      if u in m {
        var i :| 0 <= i < |out| && Usernames(out)[i] == u;
        OnlyCopy(out, i);
      }
    }
  }

  lemma {:induction false} OnlyCopy(out: seq<Follower>, i: nat)
    requires Text.Increasing(Usernames(out)) && i < |out|
    ensures FirstHref(out, out[i].username) == out[i].href && FirstTime(out, out[i].username) == out[i].followedAt
  {
    assert Usernames(out[1..]) == Usernames(out)[1..];
    if i == 0 {
      NoCopy(out[1..], out[0].username);
    } else {
      Text.LessTrichotomy(Usernames(out)[0], Usernames(out)[i]);
      OnlyCopy(out[1..], i - 1);
    }
  }

  lemma {:induction false} NoCopy(out: seq<Follower>, u: User)
    requires Text.Increasing(Usernames(out)) && forall j | 0 <= j < |out| :: Text.Less(u, Usernames(out)[j])
    ensures FirstHref(out, u) == "" && FirstTime(out, u) == None
  {
    if out != [] {
      Text.LessTrichotomy(u, Usernames(out)[0]);
      assert Usernames(out[1..]) == Usernames(out)[1..];
      NoCopy(out[1..], u);
    }
  }

  /** Splitting a list into parts and collapsing each first makes no difference. */
  lemma DedupeOfParts(a: seq<Follower>, b: seq<Follower>)
    ensures Deduped(a + b) == Deduped(Deduped(a) + Deduped(b))
  {
    RememberedConcat(a, b);
    RememberedConcat(Deduped(a), Deduped(b));
    ListingRemembered(Remembered(a), Deduped(a));
    ListingRemembered(Remembered(b), Deduped(b));
    ListingUnique(Remembered(a + b), Deduped(a + b), Deduped(Deduped(a) + Deduped(b)));
  }

  // ---------------------------------------------------------------- downloads

  /** One document of a download, as the parser reports it. */
  datatype Part = Unrecognised | Recognised(entries: seq<Follower>)

  /** A stored file, as far as reading it goes: its documents grouped by list, in order of file name. */
  datatype Content =
    | Broken
    | SingleFile(document: Part)
    | Archive(parts: map<Kind, seq<Part>>, partial: bool, declaredAt: Option<Time>, newestEntry: Option<Time>)

  /** One parsed download.  Only the lists it carried are in `lists`, some perhaps empty. */
  datatype Export = Export(lists: map<Kind, seq<Follower>>, partial: bool, takenAt: Option<Time>, source: Source)

  /** Every kind of list, as the pages show them. */
  const LIST_DEFINITIONS: seq<Kind> := [
    Followers, Following, CloseFriends, PendingRequests, RecentRequests,
    RecentlyUnfollowed, Blocked, Restricted, RemovedSuggestions, Favourited]

  lemma DefinitionsAreComplete(kind: Kind)
    ensures kind in LIST_DEFINITIONS
  {
    assert LIST_DEFINITIONS[0] == Followers && LIST_DEFINITIONS[1] == Following && LIST_DEFINITIONS[2] == CloseFriends;
    assert LIST_DEFINITIONS[3] == PendingRequests && LIST_DEFINITIONS[4] == RecentRequests;
    assert LIST_DEFINITIONS[5] == RecentlyUnfollowed && LIST_DEFINITIONS[6] == Blocked
           && LIST_DEFINITIONS[7] == Restricted;
    assert LIST_DEFINITIONS[8] == RemovedSuggestions && LIST_DEFINITIONS[9] == Favourited;
  }

  function ParsedAny(parts: seq<Part>): bool {
    parts != [] && (ParsedAny(parts[..|parts| - 1]) || parts[|parts| - 1].Recognised?)
  }

  /** The entries of the recognised documents, one after the other. */
  function Entries(parts: seq<Part>): seq<Follower> {
    if parts == [] then []
    else
      var before, last := Entries(parts[..|parts| - 1]), parts[|parts| - 1];
      if last.Recognised? then before + last.entries else before
  }

  /** The lists found among `kinds`: a recognised one is there even when it is empty. */
  ghost function ListsAmong(parts: map<Kind, seq<Part>>, kinds: seq<Kind>): map<Kind, seq<Follower>> {
    map kind | kind in parts && kind in kinds && ParsedAny(parts[kind]) :: Deduped(Entries(parts[kind]))
  }

  // ---------------------------------------------------------------- the documents of one list

  /** The documents hold a `j`-th entry in the `i`-th, which was recognised. */
  predicate EntryAt(docs: seq<Part>, i: int, j: int) {
    0 <= i < |docs| && docs[i].Recognised? && 0 <= j < |docs[i].entries|
  }

  /** That entry is for `u`. */
  predicate Naming(docs: seq<Part>, u: User, i: int, j: int) {
    EntryAt(docs, i, j) && docs[i].entries[j].username == u
  }

  /** Document by document, then entry by entry. */
  predicate ComesFirst(i: int, j: int, k: int, l: int) {
    i < k || (i == k && j < l)
  }

  /** Some recognised document has an entry for `u`. */
  ghost predicate NamedIn(docs: seq<Part>, u: User) {
    exists i, j :: Naming(docs, u, i, j)
  }

  /** Some document was recognised, whatever it holds. */
  ghost predicate AnyRecognised(docs: seq<Part>) {
    exists i :: 0 <= i < |docs| && docs[i].Recognised?
  }

  /** `time` is the follow time of the first entry for `u` that has one, if any has. */
  ghost predicate IsFirstTime(docs: seq<Part>, u: User, time: Option<Time>) {
    && (time.None? ==> forall i, j | Naming(docs, u, i, j) :: docs[i].entries[j].followedAt.None?)
    && (time.Some? ==> exists k, l :: FirstTimeAt(docs, u, k, l) && docs[k].entries[l].followedAt == time)
  }

  ghost predicate FirstTimeAt(docs: seq<Part>, u: User, k: int, l: int) {
    && Naming(docs, u, k, l) && docs[k].entries[l].followedAt.Some?
    && forall i, j | Naming(docs, u, i, j) && ComesFirst(i, j, k, l) :: docs[i].entries[j].followedAt.None?
  }

  /** `href` is the link of the first entry for `u` that has one, if any has. */
  ghost predicate IsFirstLink(docs: seq<Part>, u: User, href: string) {
    && (href == "" ==> forall i, j | Naming(docs, u, i, j) :: docs[i].entries[j].href == "")
    && (href != "" ==> exists k, l :: FirstLinkAt(docs, u, k, l) && docs[k].entries[l].href == href)
  }

  ghost predicate FirstLinkAt(docs: seq<Part>, u: User, k: int, l: int) {
    && Naming(docs, u, k, l) && docs[k].entries[l].href != ""
    && forall i, j | Naming(docs, u, i, j) && ComesFirst(i, j, k, l) :: docs[i].entries[j].href == ""
  }

  /** `list` is what the documents say between them: each name once, in order, with its first link and time. */
  ghost predicate Gathers(docs: seq<Part>, list: seq<Follower>) {
    && Text.Increasing(Usernames(list))
    && (forall u :: u in Usernames(list) <==> NamedIn(docs, u))
    && (forall f | f in list :: IsFirstTime(docs, f.username, f.followedAt) && IsFirstLink(docs, f.username, f.href))
  }

  lemma {:induction false} ParsedAnyIs(parts: seq<Part>)
    ensures ParsedAny(parts) <==> AnyRecognised(parts)
  {
    if parts != [] {
      ParsedAnyIs(parts[..|parts| - 1]);
      assert forall i | 0 <= i < |parts| - 1 :: parts[..|parts| - 1][i] == parts[i];
    }
  }

  /** One more document, after the others. */
  lemma NamingSnoc(front: seq<Part>, last: Part, u: User, i: int, j: int)
    ensures Naming(front + [last], u, i, j) <==>
              Naming(front, u, i, j)
              || (i == |front| && last.Recognised? && 0 <= j < |last.entries| && last.entries[j].username == u)
    ensures Naming(front, u, i, j) ==> (front + [last])[i] == front[i]
  {
  }

  lemma {:induction false} NamesConcat(a: seq<Follower>, b: seq<Follower>, u: User)
    ensures u in Usernames(a + b) <==> u in Usernames(a) || u in Usernames(b)
    ensures FirstTime(a + b, u) == if FirstTime(a, u).Some? then FirstTime(a, u) else FirstTime(b, u)
    ensures FirstHref(a + b, u) == if FirstHref(a, u) != "" then FirstHref(a, u) else FirstHref(b, u)
  {
    assert Usernames(a + b) == Usernames(a) + Usernames(b);
    if a == [] {
      assert a + b == b;
    } else {
      NamesConcat(a[1..], b, u);
      assert (a + b)[1..] == a[1..] + b;
    }
  }

  /** Where the first follow time of a name stands among the entries. */
  lemma {:induction false} FirstTimeStands(entries: seq<Follower>, u: User) returns (l: int)
    ensures FirstTime(entries, u).None? ==>
              forall j | 0 <= j < |entries| && entries[j].username == u :: entries[j].followedAt.None?
    ensures FirstTime(entries, u).Some? ==>
              && 0 <= l < |entries| && entries[l].username == u && entries[l].followedAt == FirstTime(entries, u)
              && forall j | 0 <= j < l && entries[j].username == u :: entries[j].followedAt.None?
  {
    l := 0;
    if entries != [] && !(entries[0].username == u && entries[0].followedAt.Some?) {
      l := FirstTimeStands(entries[1..], u);
      assert forall j | 0 < j < |entries| :: entries[j] == entries[1..][j - 1];
      l := l + 1;
    }
  }

  lemma {:induction false} FirstLinkStands(entries: seq<Follower>, u: User) returns (l: int)
    ensures FirstHref(entries, u) == "" ==>
              forall j | 0 <= j < |entries| && entries[j].username == u :: entries[j].href == ""
    ensures FirstHref(entries, u) != "" ==>
              && 0 <= l < |entries| && entries[l].username == u && entries[l].href == FirstHref(entries, u)
              && forall j | 0 <= j < l && entries[j].username == u :: entries[j].href == ""
  {
    l := 0;
    if entries != [] && !(entries[0].username == u && entries[0].href != "") {
      l := FirstLinkStands(entries[1..], u);
      assert forall j | 0 < j < |entries| :: entries[j] == entries[1..][j - 1];
      l := l + 1;
    }
  }

  lemma {:induction false} EntriesName(docs: seq<Part>, u: User)
    ensures u in Usernames(Entries(docs)) <==> NamedIn(docs, u)
  {
    if docs != [] {
      var front, last := docs[..|docs| - 1], docs[|docs| - 1];
      assert docs == front + [last];
      EntriesName(front, u);
      forall i, j {
        NamingSnoc(front, last, u, i, j);
      }
      if last.Recognised? {
        NamesConcat(Entries(front), last.entries, u);
        if j :| 0 <= j < |Usernames(last.entries)| && Usernames(last.entries)[j] == u {
          assert Naming(docs, u, |front|, j);
        }
        if j :| Naming(docs, u, |front|, j) {
          assert Usernames(last.entries)[j] == u;
        }
      }
    }
  }

  lemma {:induction false} EntriesTime(docs: seq<Part>, u: User)
    ensures IsFirstTime(docs, u, FirstTime(Entries(docs), u))
  {
    if docs != [] {
      var front, last := docs[..|docs| - 1], docs[|docs| - 1];
      assert docs == front + [last];
      EntriesTime(front, u);
      forall i, j {
        NamingSnoc(front, last, u, i, j);
      }
      var before := FirstTime(Entries(front), u);
      if before.Some? {
        if last.Recognised? {
          NamesConcat(Entries(front), last.entries, u);
        }
        var k, l :| FirstTimeAt(front, u, k, l) && front[k].entries[l].followedAt == before;
        assert FirstTimeAt(docs, u, k, l);
      } else if last.Recognised? {
        NamesConcat(Entries(front), last.entries, u);
        var l := FirstTimeStands(last.entries, u);
        if FirstTime(last.entries, u).Some? {
          assert FirstTimeAt(docs, u, |front|, l);
        }
      }
    }
  }

  lemma {:induction false} EntriesLink(docs: seq<Part>, u: User)
    ensures IsFirstLink(docs, u, FirstHref(Entries(docs), u))
  {
    if docs != [] {
      var front, last := docs[..|docs| - 1], docs[|docs| - 1];
      assert docs == front + [last];
      EntriesLink(front, u);
      forall i, j {
        NamingSnoc(front, last, u, i, j);
      }
      var before := FirstHref(Entries(front), u);
      if before != "" {
        if last.Recognised? {
          NamesConcat(Entries(front), last.entries, u);
        }
        var k, l :| FirstLinkAt(front, u, k, l) && front[k].entries[l].href == before;
        assert FirstLinkAt(docs, u, k, l);
      } else if last.Recognised? {
        NamesConcat(Entries(front), last.entries, u);
        var l := FirstLinkStands(last.entries, u);
        if FirstHref(last.entries, u) != "" {
          assert FirstLinkAt(docs, u, |front|, l);
        }
      }
    }
  }

  /** The entries of all the documents, collapsed, are what the documents say between them. */
  lemma GatheredIs(docs: seq<Part>)
    ensures Gathers(docs, Deduped(Entries(docs)))
  {
    var list := Deduped(Entries(docs));
    DedupedIs(Entries(docs));
    forall u
      ensures u in Usernames(list) <==> NamedIn(docs, u)
    {
      EntriesName(docs, u);
    }
    forall f | f in list
      ensures IsFirstTime(docs, f.username, f.followedAt) && IsFirstLink(docs, f.username, f.href)
    {
      EntriesTime(docs, f.username);
      EntriesLink(docs, f.username);
    }
  }

  /** The documents collapsed one by one. */
  ghost function EachCollapsed(docs: seq<Part>): seq<Follower> {
    if docs == [] then []
    else
      var before, last := EachCollapsed(docs[..|docs| - 1]), docs[|docs| - 1];
      if last.Recognised? then before + Deduped(last.entries) else before
  }

  lemma DedupedAgain(a: seq<Follower>)
    ensures Deduped(Deduped(a)) == Deduped(a)
  {
    ListingRemembered(Remembered(a), Deduped(a));
    ListingUnique(Remembered(a), Deduped(Deduped(a)), Deduped(a));
  }

  /** Collapsing the documents one by one and then their lists gives the same list. */
  lemma {:induction false} DedupeOfDocuments(docs: seq<Part>)
    ensures Deduped(Entries(docs)) == Deduped(EachCollapsed(docs))
  {
    if docs != [] {
      var front, last := docs[..|docs| - 1], docs[|docs| - 1];
      DedupeOfDocuments(front);
      if last.Recognised? {
        DedupeOfParts(Entries(front), last.entries);
        DedupeOfParts(EachCollapsed(front), Deduped(last.entries));
        DedupedAgain(last.entries);
      }
    }
  }

  /** When an export was generated: what it declares, else the newest time inside the archive. */
  function ArchiveTakenAt(declaredAt: Option<Time>, newestEntry: Option<Time>): (Option<Time>, Source) {
    if declaredAt.Some? then (declaredAt, Declared)
    else if newestEntry.Some? then (newestEntry, ArchiveEntry)
    else (None, Unset)
  }

  /** What a stored file parses to; nothing, unless it carries followers. */
  ghost function Parsed(c: Content): Option<Export> {
    match c
    case Broken => None
    case SingleFile(document) =>
      if document.Unrecognised? || document.entries == [] then None
      else Some(Export(map[Followers := Deduped(document.entries)], false, None, Unset))
    case Archive(parts, partial, declaredAt, newestEntry) =>
      var lists := ListsAmong(parts, LIST_DEFINITIONS);
      if Followers !in lists || lists[Followers] == [] then None
      else
        var when := ArchiveTakenAt(declaredAt, newestEntry);
        Some(Export(lists, partial, when.0, when.1))
  }

  /** A list is there exactly when a document of it was recognised, and is what its documents say between them. */
  lemma ListsAreGathered(parts: map<Kind, seq<Part>>)
    ensures var lists := ListsAmong(parts, LIST_DEFINITIONS);
            forall kind ::
              && (kind in lists <==> kind in parts && AnyRecognised(parts[kind]))
              && (kind in lists && kind in parts ==>
                    && Gathers(parts[kind], lists[kind])
                    && lists[kind] == Deduped(EachCollapsed(parts[kind])))
  {
    hide Gathers;
    hide AnyRecognised;
    hide ParsedAny;
    hide Deduped;
    forall kind | kind in parts
      ensures kind in LIST_DEFINITIONS && (ParsedAny(parts[kind]) <==> AnyRecognised(parts[kind]))
      ensures Gathers(parts[kind], Deduped(Entries(parts[kind])))
      ensures Deduped(Entries(parts[kind])) == Deduped(EachCollapsed(parts[kind]))
    {
      DefinitionsAreComplete(kind);
      ParsedAnyIs(parts[kind]);
      GatheredIs(parts[kind]);
      DedupeOfDocuments(parts[kind]);
    }
  }

  method Parse(c: Content) returns (parsed: Option<Export>)
    ensures parsed == Parsed(c)
  {
    match c {
      case Broken => return None;
      case SingleFile(document) =>
        if document.Unrecognised? || document.entries == [] {
          return None;
        }
        var followers := Dedupe(document.entries);
        return Some(Export(map[Followers := followers], false, None, Unset));
      case Archive(parts, partial, declaredAt, newestEntry) =>
        var lists := ParseArchive(parts);
        if Followers !in lists || lists[Followers] == [] {
          return None;
        }
        var taken := ArchiveTakenAt(declaredAt, newestEntry);
        return Some(Export(lists, partial, taken.0, taken.1));
    }
  }

  lemma NoListsYet(parts: map<Kind, seq<Part>>)
    ensures ListsAmong(parts, []) == map[]
  {
  }

  lemma OneMoreList(parts: map<Kind, seq<Part>>, kinds: seq<Kind>, kind: Kind)
    ensures ListsAmong(parts, kinds + [kind]) ==
              if kind in parts && ParsedAny(parts[kind])
              then ListsAmong(parts, kinds)[kind := Deduped(Entries(parts[kind]))]
              else ListsAmong(parts, kinds)
  {
    hide Deduped;
    hide Entries;
    hide ParsedAny;
    assert forall k :: k in kinds + [kind] <==> k in kinds || k == kind;
  }

  method ParseArchive(parts: map<Kind, seq<Part>>) returns (lists: map<Kind, seq<Follower>>)
    ensures lists == ListsAmong(parts, LIST_DEFINITIONS)
    ensures forall kind :: kind in lists <==> kind in parts && AnyRecognised(parts[kind])
    ensures forall kind | kind in lists && kind in parts ::
              Gathers(parts[kind], lists[kind]) && lists[kind] == Deduped(EachCollapsed(parts[kind]))
  {
    hide Deduped;
    hide Entries;
    hide ParsedAny;
    hide AnyRecognised;
    hide Gathers;
    hide EachCollapsed;
    hide ListsAmong;
    ListsAreGathered(parts);
    NoListsYet(parts);
    lists := map[];
    for i := 0 to |LIST_DEFINITIONS|
      invariant lists == ListsAmong(parts, LIST_DEFINITIONS[..i])
    {
      var kind := LIST_DEFINITIONS[i];
      assert LIST_DEFINITIONS[..i + 1] == LIST_DEFINITIONS[..i] + [kind];
      OneMoreList(parts, LIST_DEFINITIONS[..i], kind);
      if kind in parts {
        var members, parsedAny := ReadParts(parts[kind]);
        if parsedAny {
          var collapsed := Dedupe(members);
          lists := lists[kind := collapsed];
        }
      }
    }
    assert LIST_DEFINITIONS[..|LIST_DEFINITIONS|] == LIST_DEFINITIONS;
  }

  /** Goes through the documents of one list, skipping those that were not recognised. */
  method ReadParts(files: seq<Part>) returns (members: seq<Follower>, parsedAny: bool)
    ensures members == Entries(files) && parsedAny == ParsedAny(files)
  {
    members, parsedAny := [], false;
    for i := 0 to |files|
      invariant members == Entries(files[..i]) && parsedAny == ParsedAny(files[..i])
    {
      assert files[..i + 1][..i] == files[..i];
      if files[i].Unrecognised? {
        continue;
      }
      parsedAny := true;
      members := members + files[i].entries;
    }
    assert files[..|files|] == files;
  }

  /** What every admissible export satisfies. */
  ghost predicate ValidExport(e: Export) {
    && Followers in e.lists && e.lists[Followers] != []
    && (forall kind | kind in e.lists :: Text.Increasing(Usernames(e.lists[kind])))
    && (e.takenAt.Some? ==> e.source in {Declared, ArchiveEntry})
  }

  lemma ParsedIsValid(c: Content)
    requires Parsed(c).Some?
    ensures ValidExport(Parsed(c).value)
  {
    if c.SingleFile? {
      var d := Deduped(c.document.entries);
      RememberedIsFirst(c.document.entries, c.document.entries[0].username);
      assert Usernames(c.document.entries)[0] == c.document.entries[0].username;
      assert c.document.entries[0].username in Usernames(d);
    }
  }

  // ---------------------------------------------------------------- handing over to the store

  function MemberOf(f: Follower): Member { Member(f.username, f.followedAt) }

  function MembersIn(followers: seq<Follower>): (members: seq<Member>)
    ensures |members| == |followers| && forall i | 0 <= i < |members| :: members[i] == MemberOf(followers[i])
  {
    seq(|followers|, i requires 0 <= i < |followers| => MemberOf(followers[i]))
  }

  /** The snapshot the lists of an export among `kinds` amount to. */
  ghost function SnapshotAmong(e: Export, kinds: seq<Kind>): Snapshot {
    map kind | kind in e.lists && kind in kinds :: AddMembers(map[], MembersIn(e.lists[kind]))
  }

  /** The snapshot an export amounts to. */
  ghost function SnapshotIn(e: Export): Snapshot {
    map kind | kind in e.lists :: AddMembers(map[], MembersIn(e.lists[kind]))
  }

  lemma OneMoreKind(e: Export, lists: seq<ListSnapshot>, i: nat)
    requires i < |LIST_DEFINITIONS| && Incoming(lists) == SnapshotAmong(e, LIST_DEFINITIONS[..i])
    ensures var kind := LIST_DEFINITIONS[i];
            SnapshotAmong(e, LIST_DEFINITIONS[..i + 1]) ==
              if kind in e.lists then Incoming(lists + [ListSnapshot(kind, MembersIn(e.lists[kind]))])
                else Incoming(lists)
  {
    hide AddMembers;
    hide SnapshotAmong;
    var kind := LIST_DEFINITIONS[i];
    assert LIST_DEFINITIONS[..i + 1] == LIST_DEFINITIONS[..i] + [kind];
    AmongOneMore(e, LIST_DEFINITIONS[..i], kind);
    if kind in e.lists {
      assert kind !in Incoming(lists) by {
        KindsSoFar(e, i);
      }
      IncomingOneMore(lists, ListSnapshot(kind, MembersIn(e.lists[kind])));
    }
  }

  lemma AmongOneMore(e: Export, kinds: seq<Kind>, kind: Kind)
    ensures SnapshotAmong(e, kinds + [kind]) ==
              if kind in e.lists then SnapshotAmong(e, kinds)[kind := AddMembers(map[], MembersIn(e.lists[kind]))]
                else SnapshotAmong(e, kinds)
  {
    hide AddMembers;
    assert forall k :: k in kinds + [kind] <==> k in kinds || k == kind;
  }

  lemma KindsSoFar(e: Export, i: nat)
    requires i < |LIST_DEFINITIONS|
    ensures LIST_DEFINITIONS[i] !in SnapshotAmong(e, LIST_DEFINITIONS[..i])
  {
    hide AddMembers;
  }

  lemma IncomingOneMore(lists: seq<ListSnapshot>, l: ListSnapshot)
    requires l.kind !in Incoming(lists)
    ensures Incoming(lists + [l]) == Incoming(lists)[l.kind := AddMembers(map[], l.members)]
  {
    hide AddMembers;
    assert (lists + [l])[..|lists|] == lists;
  }

  lemma AllKinds(e: Export)
    ensures SnapshotAmong(e, LIST_DEFINITIONS) == SnapshotIn(e)
  {
    forall kind
      ensures kind in LIST_DEFINITIONS
    {
      DefinitionsAreComplete(kind);
    }
  }

  /** Reshapes an export for storage. */
  method ListSnapshots(e: Export) returns (lists: seq<ListSnapshot>)
    ensures Incoming(lists) == SnapshotIn(e)
  {
    lists := [];
    for i := 0 to |LIST_DEFINITIONS|
      invariant Incoming(lists) == SnapshotAmong(e, LIST_DEFINITIONS[..i])
    {
      var kind := LIST_DEFINITIONS[i];
      OneMoreKind(e, lists, i);
      if kind in e.lists {
        var members := Reshape(e.lists[kind]);
        lists := lists + [ListSnapshot(kind, members)];
      }
    }
    assert LIST_DEFINITIONS[..|LIST_DEFINITIONS|] == LIST_DEFINITIONS;
    AllKinds(e);
  }

  method Reshape(entries: seq<Follower>) returns (members: seq<Member>)
    ensures members == MembersIn(entries)
  {
    members := [];
    for j := 0 to |entries|
      invariant members == MembersIn(entries)[..j]
    {
      members := members + [MemberOf(entries[j])];
    }
  }

  /** A list without repeats is stored as it is: one member a name, with its follow time. */
  lemma {:induction false} MembersStored(followers: seq<Follower>)
    requires Text.Increasing(Usernames(followers))
    ensures AddMembers(map[], MembersIn(followers)).Keys == set u | u in Usernames(followers)
    ensures |AddMembers(map[], MembersIn(followers))| == |followers|
    ensures forall i | 0 <= i < |followers| ::
              followers[i].username in AddMembers(map[], MembersIn(followers))
              && AddMembers(map[], MembersIn(followers))[followers[i].username] == followers[i].followedAt
  {
    if followers != [] {
      var front, f := followers[..|followers| - 1], followers[|followers| - 1];
      assert Usernames(followers) == Usernames(front) + [f.username];
      assert MembersIn(followers) == MembersIn(front) + [MemberOf(f)];
      assert MembersIn(followers)[..|followers| - 1] == MembersIn(front);
      forall i | 0 <= i < |front|
        ensures Usernames(front)[i] != f.username
      {
        assert Text.Less(Usernames(followers)[i], Usernames(followers)[|followers| - 1]);
        Text.LessIrreflexive(f.username);
      }
      assert Text.Increasing(Usernames(front)) by {
        forall i, j | 0 <= i < j < |front|
          ensures Text.Less(Usernames(front)[i], Usernames(front)[j])
        {
          assert Usernames(front)[i] == Usernames(followers)[i] && Usernames(front)[j] == Usernames(followers)[j];
        }
      }
      MembersStored(front);
    }
  }
}
