/** internal/records/application/index.go: the metadata index and its two multimaps. */
module RecordIndex {
  import opened Octets
  import opened Strings
  import opened Tables
  import opened Origins

  datatype Entry = Entry(id: Id, kind: string, revision: U64, meta: Metadata)

  type Multimap = map<string, seq<Id>>

  datatype IndexView = IndexView(entries: map<Id, Entry>, byHost: Multimap, byProject: Multimap)

  const NO_ENTRIES := IndexView(map[], map[], map[])

  // ---- The operations on values -----------------------------------------------------------------

  function At(m: Multimap, key: string): seq<Id> { if key in m then m[key] else [] }

  function Append(m: Multimap, key: string, id: Id): Multimap { m[key := At(m, key) + [id]] }

  function WithoutFirst(ids: seq<Id>, id: Id): seq<Id> {
    if ids == [] then [] else if ids[0] == id then ids[1..] else [ids[0]] + WithoutFirst(ids[1..], id)
  }

  /** removeFromMultimap: one occurrence goes, and the key with the last one. */
  function Drop(m: Multimap, key: string, id: Id): Multimap {
    var ids := WithoutFirst(At(m, key), id);
    if ids == [] then m - {key} else m[key := ids]
  }

  function AppendHosts(web: Web, m: Multimap, urls: seq<LoginUrl>, id: Id): Multimap {
    if urls == [] then m
    else Append(AppendHosts(web, m, urls[..|urls| - 1], id), web.RegistrableDomain(urls[|urls| - 1].origin), id)
  }

  function DropHosts(web: Web, m: Multimap, urls: seq<LoginUrl>, id: Id): Multimap {
    if urls == [] then m
    else Drop(DropHosts(web, m, urls[..|urls| - 1], id), web.RegistrableDomain(urls[|urls| - 1].origin), id)
  }

  function RemoveIndexes(web: Web, v: IndexView, e: Entry): IndexView {
    v.(byHost := DropHosts(web, v.byHost, e.meta.urls, e.id),
       byProject := if e.meta.projectId != "" then Drop(v.byProject, e.meta.projectId, e.id) else v.byProject)
  }

  function PutEntry(web: Web, v: IndexView, e: Entry): IndexView {
    var w := if e.id in v.entries then RemoveIndexes(web, v, v.entries[e.id]) else v;
    IndexView(w.entries[e.id := e], AppendHosts(web, w.byHost, e.meta.urls, e.id),
              if e.meta.projectId != "" then Append(w.byProject, e.meta.projectId, e.id) else w.byProject)
  }

  function RemoveEntry(web: Web, v: IndexView, id: Id): IndexView {
    if id !in v.entries then v
    else
      var w := RemoveIndexes(web, v, v.entries[id]);
      w.(entries := w.entries - {id})
  }

  // ---- Agreement of the three maps ---------------------------------------------------------------

  function CountDomain(web: Web, urls: seq<LoginUrl>, d: string): nat {
    if urls == [] then 0
    else CountDomain(web, urls[..|urls| - 1], d)
         + (if web.RegistrableDomain(urls[|urls| - 1].origin) == d then 1 else 0)
  }

  function HostsOf(web: Web, v: IndexView, id: Id, d: string): nat {
    if id in v.entries then CountDomain(web, v.entries[id].meta.urls, d) else 0
  }

  function ProjectsOf(v: IndexView, id: Id, p: string): nat {
    if id in v.entries && p != "" && v.entries[id].meta.projectId == p then 1 else 0
  }

  /** How often an id is filed under a key. */
  function Filed(m: Multimap, key: string, id: Id): nat { multiset(At(m, key))[id] }

  ghost predicate NoEmptyKey(m: Multimap) { forall k | k in m :: m[k] != [] }

  ghost predicate Agrees(web: Web, v: IndexView) {
    && (forall id | id in v.entries :: v.entries[id].id == id)
    && (forall d, id :: Filed(v.byHost, d, id) == HostsOf(web, v, id, d))
    && (forall p, id :: Filed(v.byProject, p, id) == ProjectsOf(v, id, p))
    && NoEmptyKey(v.byHost) && NoEmptyKey(v.byProject)
  }

  lemma {:induction false} WithoutFirstCounts(ids: seq<Id>, id: Id)
    ensures multiset(WithoutFirst(ids, id)) == multiset(ids) - multiset{id}
  {
    if ids != [] {
      assert ids == [ids[0]] + ids[1..];
      if ids[0] != id { WithoutFirstCounts(ids[1..], id); }
    }
  }

  lemma AppendFiles(m: Multimap, key: string, id: Id, k: string, x: Id)
    ensures Filed(Append(m, key, id), k, x) == Filed(m, k, x) + (if k == key && x == id then 1 else 0)
    ensures NoEmptyKey(m) ==> NoEmptyKey(Append(m, key, id))
  {
  }

  lemma DropAt(m: Multimap, key: string, id: Id, k: string)
    ensures At(Drop(m, key, id), k) == if k == key then WithoutFirst(At(m, key), id) else At(m, k)
    ensures NoEmptyKey(m) ==> NoEmptyKey(Drop(m, key, id))
  {
  }

  lemma DropFiles(m: Multimap, key: string, id: Id, k: string, x: Id)
    ensures Filed(Drop(m, key, id), k, x) ==
            (if k == key && x == id && Filed(m, k, x) > 0 then Filed(m, k, x) - 1 else Filed(m, k, x))
    ensures NoEmptyKey(m) ==> NoEmptyKey(Drop(m, key, id))
  {
    DropAt(m, key, id, k);
    WithoutFirstCounts(At(m, key), id);
  }

  lemma {:induction false} AppendHostsFiles(web: Web, m: Multimap, urls: seq<LoginUrl>, id: Id, k: string, x: Id)
    ensures Filed(AppendHosts(web, m, urls, id), k, x) ==
            Filed(m, k, x) + (if x == id then CountDomain(web, urls, k) else 0)
    ensures NoEmptyKey(m) ==> NoEmptyKey(AppendHosts(web, m, urls, id))
  {
    if urls != [] {
      var n := |urls| - 1;
      AppendHostsFiles(web, m, urls[..n], id, k, x);
      AppendFiles(AppendHosts(web, m, urls[..n], id), web.RegistrableDomain(urls[n].origin), id, k, x);
    }
  }

  lemma {:induction false} DropHostsFiles(web: Web, m: Multimap, urls: seq<LoginUrl>, id: Id, k: string, x: Id)
    requires Filed(m, k, id) >= CountDomain(web, urls, k)
    ensures Filed(DropHosts(web, m, urls, id), k, x) ==
            Filed(m, k, x) - (if x == id then CountDomain(web, urls, k) else 0)
    ensures NoEmptyKey(m) ==> NoEmptyKey(DropHosts(web, m, urls, id))
  {
    if urls != [] {
      var n := |urls| - 1;
      DropHostsFiles(web, m, urls[..n], id, k, x);
      DropHostsFiles(web, m, urls[..n], id, k, id);
      DropFiles(DropHosts(web, m, urls[..n], id), web.RegistrableDomain(urls[n].origin), id, k, x);
    }
  }

  /** After removeIndexesLocked the entry is filed nowhere, and nothing else moved. */
  lemma RemoveIndexesFiles(web: Web, v: IndexView, e: Entry, k: string, x: Id)
    requires Agrees(web, v) && e.id in v.entries && v.entries[e.id] == e
    ensures var w := RemoveIndexes(web, v, e);
            && Filed(w.byHost, k, x) == (if x == e.id then 0 else Filed(v.byHost, k, x))
            && Filed(w.byProject, k, x) == (if x == e.id then 0 else Filed(v.byProject, k, x))
            && NoEmptyKey(w.byHost) && NoEmptyKey(w.byProject)
  {
    assert Filed(v.byHost, k, e.id) == HostsOf(web, v, e.id, k);
    DropHostsFiles(web, v.byHost, e.meta.urls, e.id, k, x);
    assert Filed(v.byProject, k, e.id) == ProjectsOf(v, e.id, k);
    DropFiles(v.byProject, e.meta.projectId, e.id, k, x);
  }

  /** The same two counts as in Agrees, for one key and one id. */
  ghost predicate FiledRight(web: Web, v: IndexView, k: string, x: Id) {
    Filed(v.byHost, k, x) == HostsOf(web, v, x, k) && Filed(v.byProject, k, x) == ProjectsOf(v, x, k)
  }

  lemma AgreesPointwise(web: Web, v: IndexView)
    requires forall id | id in v.entries :: v.entries[id].id == id
    requires forall k, x :: FiledRight(web, v, k, x)
    requires NoEmptyKey(v.byHost) && NoEmptyKey(v.byProject)
    ensures Agrees(web, v)
  {
    forall d, id ensures Filed(v.byHost, d, id) == HostsOf(web, v, id, d) { assert FiledRight(web, v, d, id); }
    forall p, id ensures Filed(v.byProject, p, id) == ProjectsOf(v, id, p) { assert FiledRight(web, v, p, id); }
  }

  lemma PutFiles(web: Web, v: IndexView, e: Entry, k: string, x: Id)
    requires Agrees(web, v)
    ensures var r := PutEntry(web, v, e);
            FiledRight(web, r, k, x) && NoEmptyKey(r.byHost) && NoEmptyKey(r.byProject)
  {
    hide Agrees, RemoveIndexes, AppendHosts, Append, Filed, NoEmptyKey, CountDomain;
    var w := if e.id in v.entries then RemoveIndexes(web, v, v.entries[e.id]) else v;
    WithoutEntryFiles(web, v, e, k, x);
    AppendHostsFiles(web, w.byHost, e.meta.urls, e.id, k, x);
    AppendFiles(w.byProject, e.meta.projectId, e.id, k, x);
  }

  /** Before the entry is put: it is filed nowhere, and every other entry as it should be. */
  lemma WithoutEntryFiles(web: Web, v: IndexView, e: Entry, k: string, x: Id)
    requires Agrees(web, v)
    ensures var w := if e.id in v.entries then RemoveIndexes(web, v, v.entries[e.id]) else v;
            && w.entries == v.entries
            && Filed(w.byHost, k, x) == (if x == e.id then 0 else HostsOf(web, v, x, k))
            && Filed(w.byProject, k, x) == (if x == e.id then 0 else ProjectsOf(v, x, k))
            && NoEmptyKey(w.byHost) && NoEmptyKey(w.byProject)
  {
    hide DropHosts, Drop, CountDomain, NoEmptyKey, Filed;
    assert Filed(v.byHost, k, x) == HostsOf(web, v, x, k);
    assert Filed(v.byProject, k, x) == ProjectsOf(v, x, k);
    if e.id in v.entries { RemoveIndexesFiles(web, v, v.entries[e.id], k, x); }
  }

  lemma PutAgrees(web: Web, v: IndexView, e: Entry)
    requires Agrees(web, v)
    ensures Agrees(web, PutEntry(web, v, e))
  {
    forall k, x ensures FiledRight(web, PutEntry(web, v, e), k, x) { PutFiles(web, v, e, k, x); }
    PutFiles(web, v, e, "", 0);
    AgreesPointwise(web, PutEntry(web, v, e));
  }

  lemma RemoveFiles(web: Web, v: IndexView, id: Id, k: string, x: Id)
    requires Agrees(web, v) && id in v.entries
    ensures var r := RemoveEntry(web, v, id);
            FiledRight(web, r, k, x) && NoEmptyKey(r.byHost) && NoEmptyKey(r.byProject)
  {
    assert Filed(v.byHost, k, x) == HostsOf(web, v, x, k);
    assert Filed(v.byProject, k, x) == ProjectsOf(v, x, k);
    RemoveIndexesFiles(web, v, v.entries[id], k, x);
  }

  lemma RemoveAgrees(web: Web, v: IndexView, id: Id)
    requires Agrees(web, v)
    ensures Agrees(web, RemoveEntry(web, v, id))
  {
    if id in v.entries {
      forall k, x ensures FiledRight(web, RemoveEntry(web, v, id), k, x) { RemoveFiles(web, v, id, k, x); }
      RemoveFiles(web, v, id, "", 0);
      AgreesPointwise(web, RemoveEntry(web, v, id));
    }
  }

  // ---- Matching --------------------------------------------------------------------------------

  datatype Reason = ByOrigin | ByProject
  datatype MatchResult = MatchResult(entry: Entry, reason: Reason)

  predicate SharesDomain(web: Web, m: Metadata, page: Origin) {
    exists u | u in m.urls :: web.RegistrableDomain(u.origin) == web.RegistrableDomain(page)
  }

  /** Why an entry is offered on a page: the verified origin outranks the project tag. */
  function Offer(web: Web, m: Metadata, page: Origin, projectId: string): Option<Reason> {
    if SharesDomain(web, m, page) && MatchesOrigin(m, page) then Some(ByOrigin)
    else if MatchesProjectId(web, m, page, projectId) then Some(ByProject)
    else None
  }

  ghost predicate NameSorted(out: seq<MatchResult>) {
    forall i, j | 0 <= i < j < |out| :: Compare(out[i].entry.meta.name, out[j].entry.meta.name) <= 0
  }

  ghost predicate OnePerId(out: seq<MatchResult>) {
    forall i, j | 0 <= i < j < |out| :: out[i].entry.id != out[j].entry.id
  }

  ghost predicate AllOffered(web: Web, v: IndexView, page: Origin, projectId: string, out: seq<MatchResult>) {
    forall r | r in out :: r.entry.id in v.entries && v.entries[r.entry.id] == r.entry
                           && Offer(web, r.entry.meta, page, projectId) == Some(r.reason)
  }

  /** An answer to a match: every offered entry once, with its reason, in name order, and nothing else. */
  ghost predicate Answers(web: Web, v: IndexView, page: Origin, projectId: string, out: seq<MatchResult>) {
    && NameSorted(out) && OnePerId(out) && AllOffered(web, v, page, projectId, out)
    && forall id | id in v.entries && Offer(web, v.entries[id].meta, page, projectId).Some? :: Listed(out, id)
  }

  ghost predicate Listed(out: seq<MatchResult>, id: Id) { exists r | r in out :: r.entry.id == id }

  /** An entry with that domain is filed under it, and only such entries are. */
  lemma FiledUnderDomain(web: Web, v: IndexView, id: Id, page: Origin)
    requires Agrees(web, v)
    ensures id in At(v.byHost, web.RegistrableDomain(page)) <==>
            id in v.entries && SharesDomain(web, v.entries[id].meta, page)
  {
    var d := web.RegistrableDomain(page);
    assert Filed(v.byHost, d, id) == HostsOf(web, v, id, d);
    if id in v.entries { CountedIffShared(web, v.entries[id].meta.urls, d); }
  }

  lemma {:induction false} CountedIffShared(web: Web, urls: seq<LoginUrl>, d: string)
    ensures CountDomain(web, urls, d) > 0 <==> exists u | u in urls :: web.RegistrableDomain(u.origin) == d
  {
    if urls != [] {
      var n := |urls| - 1;
      CountedIffShared(web, urls[..n], d);
      assert urls == urls[..n] + [urls[n]];
    }
  }

  lemma FiledUnderProject(web: Web, v: IndexView, id: Id, projectId: string)
    requires Agrees(web, v)
    ensures id in At(v.byProject, projectId) <==>
            id in v.entries && projectId != "" && v.entries[id].meta.projectId == projectId
  {
    assert Filed(v.byProject, projectId, id) == ProjectsOf(v, id, projectId);
  }

  lemma {:induction false} WithoutFirstAt(ids: seq<Id>, id: Id, i: nat)
    requires i < |ids| && ids[i] == id && forall j | 0 <= j < i :: ids[j] != id
    ensures WithoutFirst(ids, id) == ids[..i] + ids[i + 1..]
  {
    if i > 0 {
      WithoutFirstAt(ids[1..], id, i - 1);
      assert ids[..i] == [ids[0]] + ids[1..][..i - 1] && ids[i + 1..] == ids[1..][i..];
    }
  }

  lemma {:induction false} WithoutFirstAbsent(ids: seq<Id>, id: Id)
    requires id !in ids
    ensures WithoutFirst(ids, id) == ids
  {
    if ids != [] {
      assert ids[0] in ids;
      WithoutFirstAbsent(ids[1..], id);
    }
  }

  method RemoveFromMultimap(m: Multimap, key: string, id: Id) returns (r: Multimap)
    ensures r == Drop(m, key, id)
  {
    var ids := At(m, key);
    r := m;
    var i := 0;
    while i < |ids| && ids[i] != id
      invariant i <= |ids| && forall j | 0 <= j < i :: ids[j] != id
    {
      i := i + 1;
    }
    if i < |ids| {
      WithoutFirstAt(ids, id, i);
      r := r[key := ids[..i] + ids[i + 1..]];
    } else {
      WithoutFirstAbsent(ids, id);
    }
    if |At(r, key)| == 0 {
      r := r - {key};
    }
  }

  class Index {
    const web: Web
    var entries: map<Id, Entry>
    var byHost: Multimap
    var byProject: Multimap

    function View(): IndexView reads this { IndexView(entries, byHost, byProject) }

    constructor (web: Web)
      ensures this.web == web && View() == NO_ENTRIES
    {
      this.web := web;
      entries, byHost, byProject := map[], map[], map[];
    }

    method Put(e: Entry)
      modifies this
      ensures View() == PutEntry(web, old(View()), e)
    {
      if e.id in entries {
        RemoveIndexesLocked(entries[e.id]);
      }
      entries := entries[e.id := e];
      var urls := e.meta.urls;
      ghost var start := byHost;
      for i := 0 to |urls|
        invariant entries == old(entries)[e.id := e]
        invariant byProject ==
          (if e.id in old(entries) then RemoveIndexes(web, old(View()), old(entries)[e.id]).byProject
                                else old(byProject))
        invariant byHost == AppendHosts(web, start, urls[..i], e.id)
      {
        var d := web.RegistrableDomain(urls[i].origin);
        byHost := byHost[d := At(byHost, d) + [e.id]];
        assert urls[..i + 1][..i] == urls[..i];
      }
      assert urls[..|urls|] == urls;
      if e.meta.projectId != "" {
        byProject := byProject[e.meta.projectId := At(byProject, e.meta.projectId) + [e.id]];
      }
    }

    method Remove(id: Id)
      modifies this
      ensures View() == RemoveEntry(web, old(View()), id)
    {
      if id in entries {
        RemoveIndexesLocked(entries[id]);
        entries := entries - {id};
      }
    }

    method RemoveIndexesLocked(e: Entry)
      modifies this`byHost, this`byProject
      ensures View() == RemoveIndexes(web, old(View()), e)
    {
      var urls := e.meta.urls;
      for i := 0 to |urls|
        invariant byProject == old(byProject)
        invariant byHost == DropHosts(web, old(byHost), urls[..i], e.id)
      {
        byHost := RemoveFromMultimap(byHost, web.RegistrableDomain(urls[i].origin), e.id);
        assert urls[..i + 1][..i] == urls[..i];
      }
      assert urls[..|urls|] == urls;
      if e.meta.projectId != "" {
        byProject := RemoveFromMultimap(byProject, e.meta.projectId, e.id);
      }
    }

    method Clear()
      modifies this
      ensures View() == NO_ENTRIES
    {
      entries, byHost, byProject := map[], map[], map[];
    }

    /** The narrowed search. */
    method Match(page: Origin, projectId: string) returns (out: seq<MatchResult>)
      requires Agrees(web, View())
      ensures Answers(web, View(), page, projectId, out)
    {
      var candidates, tagged := At(byHost, web.RegistrableDomain(page)), At(byProject, projectId);
      forall id ensures id in candidates <==> id in entries && SharesDomain(web, entries[id].meta, page) {
        FiledUnderDomain(web, View(), id, page);
      }
      forall id ensures id in tagged <==> id in entries && projectId != "" && entries[id].meta.projectId == projectId {
        FiledUnderProject(web, View(), id, projectId);
      }
      var seen;
      out, seen := OriginMatches(View(), candidates, page, projectId);
      if projectId != "" {
        out := ProjectMatches(View(), tagged, page, projectId, out, seen);
      }
      out := SortByName(out);
    }

    method OriginMatches(v: IndexView, candidates: seq<Id>, page: Origin, projectId: string)
      returns (out: seq<MatchResult>, seen: set<Id>)
      requires forall id | id in candidates ::
        id in v.entries && v.entries[id].id == id && SharesDomain(web, v.entries[id].meta, page)
      ensures OnePerId(out) && AllOffered(web, v, page, projectId, out)
      ensures forall id :: id in seen <==> Listed(out, id)
      ensures forall id | id in candidates && MatchesOrigin(v.entries[id].meta, page) :: id in seen
      ensures forall id | id in seen :: id in candidates && MatchesOrigin(v.entries[id].meta, page)
    {
      out, seen := [], {};
      for i := 0 to |candidates|
        invariant OnePerId(out) && AllOffered(web, v, page, projectId, out)
        invariant forall id :: id in seen <==> Listed(out, id)
        invariant forall id | id in candidates[..i] && MatchesOrigin(v.entries[id].meta, page) :: id in seen
        invariant forall id | id in seen :: id in candidates && MatchesOrigin(v.entries[id].meta, page)
      {
        var id := candidates[i];
        if id !in seen && MatchesOrigin(v.entries[id].meta, page) {
          AppendOffered(web, v, page, projectId, out, id, ByOrigin);
          out := out + [MatchResult(v.entries[id], ByOrigin)];
          seen := seen + {id};
        }
        assert candidates[..i + 1] == candidates[..i] + [id];
      }
      assert candidates[..|candidates|] == candidates;
    }

    method ProjectMatches(v: IndexView, tagged: seq<Id>, page: Origin, projectId: string,
                          start: seq<MatchResult>, seen0: set<Id>)
      returns (out: seq<MatchResult>)
      requires forall id | id in tagged :: id in v.entries && v.entries[id].id == id
      requires OnePerId(start) && AllOffered(web, v, page, projectId, start)
      requires forall id :: id in seen0 <==> Listed(start, id)
      requires forall id | id in tagged && id !in seen0 ::
        !(SharesDomain(web, v.entries[id].meta, page) && MatchesOrigin(v.entries[id].meta, page))
      ensures OnePerId(out) && AllOffered(web, v, page, projectId, out)
      ensures forall id | Listed(start, id) :: Listed(out, id)
      ensures forall id | id in tagged && MatchesProjectId(web, v.entries[id].meta, page, projectId) :: Listed(out, id)
    {
      out := start;
      var seen := seen0;
      for i := 0 to |tagged|
        invariant OnePerId(out) && AllOffered(web, v, page, projectId, out)
        invariant seen0 <= seen
        invariant forall id :: id in seen <==> Listed(out, id)
        invariant forall id | id in tagged[..i] && MatchesProjectId(web, v.entries[id].meta, page, projectId) ::
                 id in seen
      {
        var id := tagged[i];
        if id !in seen && MatchesProjectId(web, v.entries[id].meta, page, projectId) {
          AppendOffered(web, v, page, projectId, out, id, ByProject);
          out := out + [MatchResult(v.entries[id], ByProject)];
          seen := seen + {id};
        }
        assert tagged[..i + 1] == tagged[..i] + [id];
      }
      assert tagged[..|tagged|] == tagged;
    }
  }

  lemma AppendOffered(web: Web, v: IndexView, page: Origin, projectId: string,
                      out: seq<MatchResult>, id: Id, reason: Reason)
    requires OnePerId(out) && AllOffered(web, v, page, projectId, out) && !Listed(out, id)
    requires id in v.entries && v.entries[id].id == id
    requires Offer(web, v.entries[id].meta, page, projectId) == Some(reason)
    ensures var next := out + [MatchResult(v.entries[id], reason)];
            OnePerId(next) && AllOffered(web, v, page, projectId, next)
            && forall x :: Listed(next, x) <==> Listed(out, x) || x == id
  {
    var next := out + [MatchResult(v.entries[id], reason)];
    forall k | 0 <= k < |out| ensures out[k].entry.id != id { assert out[k] in out; }
    forall x ensures Listed(next, x) <==> Listed(out, x) || x == id {
      if Listed(out, x) {
        var r :| r in out && r.entry.id == x;
        assert r in next;
      }
      assert next[|out|] in next;
    }
  }

  /** sort.Slice by name; the order among equal names is left open by the contract. */
  method SortByName(rs: seq<MatchResult>) returns (out: seq<MatchResult>)
    requires OnePerId(rs)
    ensures NameSorted(out) && OnePerId(out)
    ensures forall r :: r in out <==> r in rs
  {
    out := [];
    for i := 0 to |rs|
      invariant NameSorted(out) && OnePerId(out)
      invariant forall r :: r in out <==> r in rs[..i]
    {
      var at := 0;
      ghost var before := out;
      while at < |out| && Compare(out[at].entry.meta.name, rs[i].entry.meta.name) <= 0
        invariant at <= |out|
        invariant forall k | 0 <= k < at :: Compare(out[k].entry.meta.name, rs[i].entry.meta.name) <= 0
      {
        at := at + 1;
      }
      InsertKeepsIds(rs, i, out, at);
      out := out[..at] + [rs[i]] + out[at..];
      InsertKeepsOrder(before, rs[i], at);
    }
  }

  lemma InsertKeepsIds(rs: seq<MatchResult>, i: nat, out: seq<MatchResult>, at: nat)
    requires i < |rs| && OnePerId(rs) && OnePerId(out) && at <= |out|
    requires forall r :: r in out <==> r in rs[..i]
    ensures OnePerId(out[..at] + [rs[i]] + out[at..])
    ensures forall r :: r in out[..at] + [rs[i]] + out[at..] <==> r in rs[..i + 1]
  {
    forall k | 0 <= k < |out| ensures out[k].entry.id != rs[i].entry.id {
      assert out[k] in rs[..i];
      var j :| 0 <= j < i && rs[j] == out[k];
    }
    assert rs[..i + 1] == rs[..i] + [rs[i]];
    assert out == out[..at] + out[at..];
  }

  lemma InsertKeepsOrder(out: seq<MatchResult>, r: MatchResult, at: nat)
    requires NameSorted(out) && at <= |out|
    requires forall k | 0 <= k < at :: Compare(out[k].entry.meta.name, r.entry.meta.name) <= 0
    requires at < |out| ==> Compare(out[at].entry.meta.name, r.entry.meta.name) > 0
    ensures NameSorted(out[..at] + [r] + out[at..])
  {
    forall k | at <= k < |out| ensures Compare(r.entry.meta.name, out[k].entry.meta.name) <= 0 {
      CompareAntisymmetric(out[at].entry.meta.name, r.entry.meta.name);
      CompareEqual(out[at].entry.meta.name, out[at].entry.meta.name);
      CompareTransitive(r.entry.meta.name, out[at].entry.meta.name, out[k].entry.meta.name);
    }
  }

  // ---- The narrowed search against the linear scan --------------------------------------------------

  /** What a scan over all records with MatchesOrigin and MatchesProjectID would offer. */
  function ScanOffer(web: Web, m: Metadata, page: Origin, projectId: string): Option<Reason> {
    if MatchesOrigin(m, page) then Some(ByOrigin)
    else if MatchesProjectId(web, m, page, projectId) then Some(ByProject)
    else None
  }

  /** Stored above the page's registrable domain, with subdomains allowed. */
  predicate StoredAbove(web: Web, u: LoginUrl, page: Origin) {
    u.allowSubdomains && u.origin.host != web.RegistrableDomain(page)
        && IsUnder(web.RegistrableDomain(page), u.origin.host)
  }

  /** A URL that covers the page shares its registrable domain unless it is stored above that domain. */
  lemma CoveringUrlSharesDomain(web: Web, u: LoginUrl, page: Origin)
    requires SuffixLaw(web) && u.Matches(page)
    ensures web.RegistrableDomain(u.origin) == web.RegistrableDomain(page) <==> !StoredAbove(web, u, page)
  {
    var host, domain := u.origin.host, web.RegistrableDomain(page);
    assert IsUnder(page.host, host) && IsUnder(page.host, domain) && IsUnder(host, web.suffix(host));
    ParentsCompare(page.host, host, domain);
    assert IsUnder(host, domain) ==> web.suffix(host) == domain;
    if !u.allowSubdomains { assert u.origin == page; }
  }

  /**
   The narrowed search differs from the scan exactly for a record that covers the page only by URLs stored above the
   page's registrable domain, and no other URL of which happens to share that domain.
   */
  lemma NarrowingIsExact(web: Web, m: Metadata, page: Origin, projectId: string)
    requires SuffixLaw(web)
    ensures Offer(web, m, page, projectId) != ScanOffer(web, m, page, projectId) <==>
            && MatchesOrigin(m, page)
            && (forall u | u in m.urls && u.Matches(page) :: StoredAbove(web, u, page))
            && (forall u | u in m.urls && !u.Matches(page) ::
                 web.RegistrableDomain(u.origin) != web.RegistrableDomain(page))
  {
    hide SuffixLaw, StoredAbove, IsUnder;
    forall u | u in m.urls && u.Matches(page)
      ensures web.RegistrableDomain(u.origin) == web.RegistrableDomain(page) <==> !StoredAbove(web, u, page)
    {
      CoveringUrlSharesDomain(web, u, page);
    }
    if MatchesOrigin(m, page) {
      var covering :| covering in m.urls && covering.Matches(page);
    }
  }

  /** Whatever the lookups: a record without a subdomain URL is offered as the scan would offer it. */
  lemma ExactUrlsAreNeverLost(web: Web, m: Metadata, page: Origin, projectId: string)
    requires forall u | u in m.urls :: !u.allowSubdomains
    ensures Offer(web, m, page, projectId) == ScanOffer(web, m, page, projectId)
  {
    if MatchesOrigin(m, page) {
      var u :| u in m.urls && u.Matches(page);
      assert u.origin == page;
    }
  }

  /** Whatever the lookups: the index offers nothing the scan does not. */
  lemma OfferedIsScanned(web: Web, m: Metadata, page: Origin, projectId: string)
    ensures Offer(web, m, page, projectId).Some? ==> ScanOffer(web, m, page, projectId).Some?
  {
  }

  const CO_UK := Origin("https", "co.uk", "443")
  const A_CO_UK := Origin("https", "a.co.uk", "443")

  /** What URL parsing and the suffix list say about the hosts of the two examples. */
  ghost predicate KnowsCoUk(web: Web) {
    && web.parse("https://co.uk") == Some(CO_UK) && web.parse("http://a.co.uk") == Some(Origin("http", "a.co.uk", "80"))
    && web.suffix("co.uk") == "co.uk" && web.suffix("a.co.uk") == "a.co.uk"
  }

  lemma CoUkCovers(u: LoginUrl)
    requires u.origin == CO_UK && u.allowSubdomains
    ensures u.Matches(A_CO_UK) && "co.uk" != "a.co.uk"
  {
    assert A_CO_UK.host[|A_CO_UK.host| - 6..] == "." + u.origin.host;
    assert |"co.uk"| != |"a.co.uk"|;
  }

  ghost predicate Parsed(web: Web, urls: seq<LoginUrl>) { forall u | u in urls :: web.parse(u.raw) == Some(u.origin) }

  /**
   A record that can be stored, for a public suffix with the subdomain option: the scan covers the page, the index
   does not.
   */
  lemma NarrowingLosesSuffixRecord(web: Web)
    requires KnowsCoUk(web)
    ensures var m := Metadata("n", "", "", "", [LoginUrl("https://co.uk", CO_UK, true)], [], "", [], 0, 0);
            && Parsed(web, m.urls) && ScanOffer(web, m, A_CO_UK, "") == Some(ByOrigin)
            && Offer(web, m, A_CO_UK, "") == None
  {
    var u := LoginUrl("https://co.uk", CO_UK, true);
    var m := Metadata("n", "", "", "", [u], [], "", [], 0, 0);
    CoUkCovers(u);
    assert u in m.urls;
    assert !SharesDomain(web, m, A_CO_UK);
  }

  /** A second URL that does not cover the page but shares its domain brings the same record back. */
  lemma DomainAndCoverMayComeFromDifferentUrls(web: Web)
    requires KnowsCoUk(web)
    ensures var near := LoginUrl("http://a.co.uk", Origin("http", "a.co.uk", "80"), false);
            var m := Metadata("n", "", "", "", [near, LoginUrl("https://co.uk", CO_UK, true)], [], "", [], 0, 0);
            && Parsed(web, m.urls) && Offer(web, m, A_CO_UK, "") == Some(ByOrigin)
            && forall u | u in m.urls ::
                 !(u.Matches(A_CO_UK) && web.RegistrableDomain(u.origin) == web.RegistrableDomain(A_CO_UK))
  {
    var near := LoginUrl("http://a.co.uk", Origin("http", "a.co.uk", "80"), false);
    var wide := LoginUrl("https://co.uk", CO_UK, true);
    var m := Metadata("n", "", "", "", [near, wide], [], "", [], 0, 0);
    CoUkCovers(wide);
    assert near in m.urls && wide in m.urls;
    forall u | u in m.urls
      ensures !(u.Matches(A_CO_UK) && web.RegistrableDomain(u.origin) == web.RegistrableDomain(A_CO_UK))
    {
      assert u == near || u == wide;
    }
  }
}
