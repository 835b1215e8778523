/** Skill discovery of internal/skills/discovery.go, and what it gives to Merge. */
module SkillDiscovery {
  import opened Prelude
  import M = SkillMerge

  // ---- parseFrontmatter ------------------------------------------------------------------------

  const FENCE := "---"

  /** strings.Index. */
  function Index(s: string, pat: string): Option<nat> {
    if pat <= s then Some(0)
    else if s == "" then None
    else match Index(s[1..], pat)
         case None => None
         case Some(k) => Some(k + 1)
  }

  /** The text handed to the YAML parser: between the opening fence and the next one. */
  function YamlPart(content: string): Option<string> {
    if !(FENCE <= content) then None
    else match Index(content[3..], FENCE)
         case None => None
         case Some(end) => if end + 3 <= |content| then Some(content[3..end + 3]) else None
  }

  predicate Occurs(s: string, k: nat, pat: string) { k <= |s| && pat <= s[k..] }

  lemma {:induction false} IndexIsFirst(s: string, pat: string)
    ensures match Index(s, pat)
            case None => forall k: nat :: !Occurs(s, k, pat)
            case Some(i) => Occurs(s, i, pat) && forall k :: 0 <= k < i ==> !Occurs(s, k, pat)
  {
    assert s[0..] == s;
    if pat <= s || s == "" {
    } else {
      IndexIsFirst(s[1..], pat);
      forall k: nat | 0 < k ensures Occurs(s, k, pat) <==> Occurs(s[1..], k - 1, pat) {
        if k <= |s| { assert s[k..] == s[1..][k - 1..]; }
      }
    }
  }

  lemma FirstIndex(s: string, pat: string, i: nat)
    ensures Index(s, pat) == Some(i) <==> Occurs(s, i, pat) && forall k :: 0 <= k < i ==> !Occurs(s, k, pat)
  {
    IndexIsFirst(s, pat);
    if Index(s, pat).Some? {
      var j := Index(s, pat).value;
      if Occurs(s, i, pat) && forall k :: 0 <= k < i ==> !Occurs(s, k, pat) {
        assert !(i < j) && !(j < i);
      }
    }
  }

  /**
   The frontmatter of a file is `y` exactly when the file is a fence, `y`, a fence and anything, and
   no fence begins inside `y`, not even one that ends in the closing fence.
   */
  lemma FrontmatterExactly(content: string, y: string)
    ensures YamlPart(content) == Some(y) <==>
      && "---" <= content
      && Occurs(content[3..], |y|, "---") && content[3..][..|y|] == y
      && forall k :: 0 <= k < |y| ==> !Occurs(content[3..], k, "---")
  {
    if FENCE <= content {
      var rest := content[3..];
      IndexIsFirst(rest, FENCE);
      FirstIndex(rest, FENCE, |y|);
      if Index(rest, FENCE).Some? {
        var end := Index(rest, FENCE).value;
        assert content[3..end + 3] == rest[..end];
      }
    }
  }

  // ---- Discover --------------------------------------------------------------------------------

  datatype Frontmatter = Frontmatter(name: string, description: string)

  /** A directory entry: the content of its SKILL.md when it is a directory that has one. */
  datatype Entry = Entry(name: string, isDir: bool, skillMD: Option<string>)

  /** A scanned directory, or None when it cannot be read. */
  type Listing = Option<seq<Entry>>

  datatype Skill = Skill(name: string, description: string, dir: nat, entry: string)

  /** What one entry offers: a skill with a description, if its frontmatter parses. */
  function Offer(yaml: string -> Option<Frontmatter>, d: nat, e: Entry): Option<Skill> {
    if !e.isDir || e.skillMD.None? || YamlPart(e.skillMD.value).None? then None
    else match yaml(YamlPart(e.skillMD.value).value)
         case None => None
         case Some(fm) => if fm.description == "" then None else Some(Skill(fm.name, fm.description, d, e.name))
  }

  function OffersOf(yaml: string -> Option<Frontmatter>, d: nat, entries: seq<Entry>): seq<Skill> {
    if entries == [] then []
    else
      var n := |entries| - 1;
      OffersOf(yaml, d, entries[..n]) + match Offer(yaml, d, entries[n]) case None => [] case Some(s) => [s]
  }

  /** All offered skills, in the order of the directories and of their entries. */
  function Offers(yaml: string -> Option<Frontmatter>, dirs: seq<Listing>): seq<Skill> {
    if dirs == [] then []
    else
      var n := |dirs| - 1;
      Offers(yaml, dirs[..n]) + if dirs[n].Some? then OffersOf(yaml, n, dirs[n].value) else []
  }

  /** The first offer of each name. */
  function FirstOfName(offers: seq<Skill>): seq<Skill> {
    if offers == [] then []
    else
      var n := |offers| - 1;
      var r := FirstOfName(offers[..n]);
      if offers[n].name in Names(offers[..n]) then r else r + [offers[n]]
  }

  function Names(skills: seq<Skill>): set<string> {
    if skills == [] then {} else Names(skills[..|skills| - 1]) + {skills[|skills| - 1].name}
  }

  /** What the first k entries of directory d add to the offers before them. */
  function OffersUpTo(yaml: string -> Option<Frontmatter>, d: nat, entries: seq<Entry>, k: nat, before: seq<Skill>)
    : seq<Skill>
    requires k <= |entries|
  {
    before + OffersOf(yaml, d, entries[..k])
  }

  lemma OneMoreEntry(yaml: string -> Option<Frontmatter>, d: nat, entries: seq<Entry>, k: nat, before: seq<Skill>)
    requires k < |entries|
    ensures var offer, now := Offer(yaml, d, entries[k]), OffersUpTo(yaml, d, entries, k, before);
      OffersUpTo(yaml, d, entries, k + 1, before) == if offer.Some? then now + [offer.value] else now
  {
    assert entries[..k + 1][..k] == entries[..k];
    var now := OffersOf(yaml, d, entries[..k]);
    match Offer(yaml, d, entries[k])
    case None => assert now + [] == now;
    case Some(s) => assert before + (now + [s]) == before + now + [s];
  }

  lemma FirstEntries(yaml: string -> Option<Frontmatter>, d: nat, entries: seq<Entry>, before: seq<Skill>)
    ensures OffersUpTo(yaml, d, entries, 0, before) == before
    ensures OffersUpTo(yaml, d, entries, |entries|, before) == before + OffersOf(yaml, d, entries)
  {
    assert entries[..|entries|] == entries;
  }

  /** Discover's loop over the entries of one directory. */
  method ScanEntries(yaml: string -> Option<Frontmatter>, d: nat, entries: seq<Entry>,
                     seen0: set<string>, result0: seq<Skill>, ghost before: seq<Skill>)
    returns (seen: set<string>, result: seq<Skill>)
    requires result0 == FirstOfName(before) && seen0 == Names(before)
    ensures result == FirstOfName(before + OffersOf(yaml, d, entries))
    ensures seen == Names(before + OffersOf(yaml, d, entries))
  {
    seen, result := seen0, result0;
    FirstEntries(yaml, d, entries, before);
    for k := 0 to |entries|
      invariant result == FirstOfName(OffersUpTo(yaml, d, entries, k, before))
      invariant seen == Names(OffersUpTo(yaml, d, entries, k, before))
    {
      OneMoreEntry(yaml, d, entries, k, before);
      var offer := Offer(yaml, d, entries[k]);
      if offer.Some? {
        var s := offer.value;
        OneMoreOffer(OffersUpTo(yaml, d, entries, k, before), s);
        if s.name !in seen {
          seen := seen + {s.name};
          result := result + [s];
        }
      }
    }
  }

  /** Discover: the loops over directories and entries with the set of seen names; `at` says where each skill is. */
  method Discover(yaml: string -> Option<Frontmatter>, dirs: seq<Listing>)
    returns (result: seq<Skill>, ghost at: seq<Place>)
    ensures FoundAt(yaml, dirs, result, at) && FindsAll(yaml, dirs, result)
    ensures result == FirstOfName(Offers(yaml, dirs))
  {
    var seen: set<string> := {};
    result := [];
    for i := 0 to |dirs|
      invariant result == FirstOfName(Offers(yaml, dirs[..i])) && seen == Names(Offers(yaml, dirs[..i]))
    {
      assert dirs[..i + 1][..i] == dirs[..i];
      ghost var before := Offers(yaml, dirs[..i]);
      if dirs[i].Some? {
        seen, result := ScanEntries(yaml, i, dirs[i].value, seen, result, before);
      } else {
        assert before + [] == before;
      }
    }
    assert dirs[..|dirs|] == dirs;
    at := DiscoveredExactly(yaml, dirs);
  }

  lemma OneMoreOffer(offers: seq<Skill>, s: Skill)
    ensures FirstOfName(offers + [s]) ==
      if s.name in Names(offers) then FirstOfName(offers) else FirstOfName(offers) + [s]
    ensures Names(offers + [s]) == Names(offers) + {s.name}
  {
    assert (offers + [s])[..|offers|] == offers;
  }

  lemma {:induction false} NamesMembers(skills: seq<Skill>, name: string)
    ensures name in Names(skills) <==> exists k :: 0 <= k < |skills| && skills[k].name == name
  {
    if skills == [] {
    } else {
      var n := |skills| - 1;
      NamesMembers(skills[..n], name);
      if name in Names(skills[..n]) {
        var k :| 0 <= k < n && skills[..n][k].name == name;
        assert skills[k].name == name;
      }
      if k :| 0 <= k < n && skills[k].name == name {
        assert skills[..n][k].name == name;
      }
    }
  }

  ghost predicate UniqueNames(skills: seq<Skill>) {
    forall i, j :: 0 <= i < |skills| && 0 <= j < |skills| && skills[i].name == skills[j].name ==> i == j
  }

  lemma OneMoreName(skills: seq<Skill>, s: Skill)
    requires UniqueNames(skills) && s.name !in Names(skills)
    ensures UniqueNames(skills + [s]) && Names(skills + [s]) == Names(skills) + {s.name}
  {
    NamesMembers(skills, s.name);
    assert (skills + [s])[..|skills|] == skills;
  }

  /** Discover's names are unique, and they are the offered names. */
  lemma {:induction false} NamesOnce(offers: seq<Skill>)
    ensures Names(FirstOfName(offers)) == Names(offers) && UniqueNames(FirstOfName(offers))
  {
    if offers == [] {
    } else {
      var n := |offers| - 1;
      NamesOnce(offers[..n]);
      if offers[n].name !in Names(offers[..n]) {
        OneMoreName(FirstOfName(offers[..n]), offers[n]);
      }
    }
  }

  /** The first offer of its name. */
  ghost predicate IsFirst(offers: seq<Skill>, k: nat) {
    k < |offers| && forall j :: 0 <= j < k ==> offers[j].name != offers[k].name
  }

  // ---- In terms of directories and entries -----------------------------------------------------------

  /** The frontmatter of a skill: its directory has a SKILL.md with a frontmatter that parses and a description. */
  ghost predicate Describes(yaml: string -> Option<Frontmatter>, e: Entry, s: Skill) {
    && e.isDir && e.skillMD.Some? && YamlPart(e.skillMD.value).Some?
    && yaml(YamlPart(e.skillMD.value).value) == Some(Frontmatter(s.name, s.description))
    && s.description != "" && s.entry == e.name
  }

  /** An entry of a directory, both by number. */
  datatype Place = Place(dir: nat, entry: nat)

  predicate Earlier(p: Place, q: Place) { p.dir < q.dir || (p.dir == q.dir && p.entry < q.entry) }

  /** The entry there, of a directory that can be read, offers the skill. */
  ghost predicate OfferedAt(yaml: string -> Option<Frontmatter>, dirs: seq<Listing>, p: Place, s: Skill) {
    && p.dir < |dirs| && dirs[p.dir].Some? && p.entry < |dirs[p.dir].value|
    && Describes(yaml, dirs[p.dir].value[p.entry], s) && s.dir == p.dir
  }

  ghost predicate NoneEarlier(yaml: string -> Option<Frontmatter>, dirs: seq<Listing>, p: Place, name: string) {
    forall q, s :: Earlier(q, p) && OfferedAt(yaml, dirs, q, s) ==> s.name != name
  }

  /** Each skill is offered at its place, no earlier place offers its name, and the places come in order. */
  ghost predicate FoundAt(yaml: string -> Option<Frontmatter>, dirs: seq<Listing>, found: seq<Skill>, at: seq<Place>) {
    && |at| == |found|
    && (forall i :: 0 <= i < |found| ==>
          OfferedAt(yaml, dirs, at[i], found[i]) && NoneEarlier(yaml, dirs, at[i], found[i].name))
    && (forall i, j :: 0 <= i < j < |at| ==> Earlier(at[i], at[j]))
  }

  /** Every name that some entry offers is found. */
  ghost predicate FindsAll(yaml: string -> Option<Frontmatter>, dirs: seq<Listing>, found: seq<Skill>) {
    forall p, s :: OfferedAt(yaml, dirs, p, s) ==> exists i :: 0 <= i < |found| && found[i].name == s.name
  }

  /** What is offered in directories before d, and in the first k entries of directory d. */
  predicate Within(p: Place, d: nat, k: nat) { p.dir < d || (p.dir == d && p.entry < k) }

  /** The offers up to there are the listed ones, at the listed places, in order. */
  ghost predicate OffersAt(yaml: string -> Option<Frontmatter>, dirs: seq<Listing>, d: nat, k: nat,
                           offers: seq<Skill>, at: seq<Place>) {
    && |at| == |offers|
    && (forall i :: 0 <= i < |at| ==> OfferedAt(yaml, dirs, at[i], offers[i]) && Within(at[i], d, k))
    && (forall i, j :: 0 <= i < j < |at| ==> Earlier(at[i], at[j]))
    && (forall p, s :: OfferedAt(yaml, dirs, p, s) && Within(p, d, k) ==> p in at)
  }

  lemma OfferExactly(yaml: string -> Option<Frontmatter>, d: nat, e: Entry, s: Skill)
    ensures Offer(yaml, d, e) == Some(s) <==> Describes(yaml, e, s) && s.dir == d
  {
  }

  lemma OneMorePlace(yaml: string -> Option<Frontmatter>, dirs: seq<Listing>, d: nat, k: nat,
                     offers: seq<Skill>, at: seq<Place>) returns (at': seq<Place>)
    requires d < |dirs| && dirs[d].Some? && k < |dirs[d].value| && OffersAt(yaml, dirs, d, k, offers, at)
    ensures var offer := Offer(yaml, d, dirs[d].value[k]);
      OffersAt(yaml, dirs, d, k + 1, if offer.Some? then offers + [offer.value] else offers, at')
  {
    var offer := Offer(yaml, d, dirs[d].value[k]);
    at' := if offer.Some? then at + [Place(d, k)] else at;
    if offer.Some? {
      OfferExactly(yaml, d, dirs[d].value[k], offer.value);
    }
    forall p, s | OfferedAt(yaml, dirs, p, s) && Within(p, d, k + 1) ensures p in at' {
      if p == Place(d, k) {
        OfferExactly(yaml, d, dirs[d].value[k], s);
      } else {
        assert Within(p, d, k);
      }
    }
  }

  lemma {:induction false} EntryPlaces(yaml: string -> Option<Frontmatter>, dirs: seq<Listing>, d: nat, k: nat,
                                       before: seq<Skill>, at: seq<Place>) returns (at': seq<Place>)
    requires d < |dirs| && dirs[d].Some? && k <= |dirs[d].value| && OffersAt(yaml, dirs, d, 0, before, at)
    ensures OffersAt(yaml, dirs, d, k, OffersUpTo(yaml, d, dirs[d].value, k, before), at')
  {
    FirstEntries(yaml, d, dirs[d].value, before);
    if k == 0 {
      at' := at;
    } else {
      var m := EntryPlaces(yaml, dirs, d, k - 1, before, at);
      OneMoreEntry(yaml, d, dirs[d].value, k - 1, before);
      at' := OneMorePlace(yaml, dirs, d, k - 1, OffersUpTo(yaml, d, dirs[d].value, k - 1, before), m);
    }
  }

  lemma NextDirectory(yaml: string -> Option<Frontmatter>, dirs: seq<Listing>, d: nat, k: nat,
                      offers: seq<Skill>, at: seq<Place>)
    requires d < |dirs| && OffersAt(yaml, dirs, d, k, offers, at)
    requires if dirs[d].Some? then k == |dirs[d].value| else k == 0
    ensures OffersAt(yaml, dirs, d + 1, 0, offers, at)
  {
    forall p, s | OfferedAt(yaml, dirs, p, s) && Within(p, d + 1, 0) ensures p in at {
      assert Within(p, d, k);
    }
  }

  lemma {:induction false} DirectoryPlaces(yaml: string -> Option<Frontmatter>, dirs: seq<Listing>, d: nat)
    returns (at: seq<Place>)
    requires d <= |dirs|
    ensures OffersAt(yaml, dirs, d, 0, Offers(yaml, dirs[..d]), at)
  {
    if d == 0 {
      at := [];
    } else {
      var m := DirectoryPlaces(yaml, dirs, d - 1);
      var before := Offers(yaml, dirs[..d - 1]);
      assert dirs[..d][..d - 1] == dirs[..d - 1];
      if dirs[d - 1].Some? {
        var entries := dirs[d - 1].value;
        at := EntryPlaces(yaml, dirs, d - 1, |entries|, before, m);
        FirstEntries(yaml, d - 1, entries, before);
        NextDirectory(yaml, dirs, d - 1, |entries|, before + OffersOf(yaml, d - 1, entries), at);
      } else {
        at := m;
        assert before + [] == before;
        NextDirectory(yaml, dirs, d - 1, 0, before, at);
      }
    }
  }

  /** Each discovered skill is the first offer of its name, and they stand in the order of these offers. */
  lemma {:induction false} FirstOccurrenceWins(offers: seq<Skill>) returns (ks: seq<nat>)
    ensures |ks| == |FirstOfName(offers)|
    ensures forall i :: 0 <= i < |ks| ==> IsFirst(offers, ks[i]) && offers[ks[i]] == FirstOfName(offers)[i]
    ensures forall i, j :: 0 <= i < j < |ks| ==> ks[i] < ks[j]
  {
    if offers == [] {
      ks := [];
    } else {
      var n := |offers| - 1;
      ks := FirstOccurrenceWins(offers[..n]);
      NamesMembers(offers[..n], offers[n].name);
      assert forall k :: 0 <= k < n ==> offers[..n][k] == offers[k];
      if offers[n].name !in Names(offers[..n]) {
        ks := ks + [n];
      }
    }
  }

  lemma FirstIsNoneEarlier(yaml: string -> Option<Frontmatter>, dirs: seq<Listing>,
                           offers: seq<Skill>, at: seq<Place>, k: nat)
    requires OffersAt(yaml, dirs, |dirs|, 0, offers, at) && IsFirst(offers, k)
    ensures NoneEarlier(yaml, dirs, at[k], offers[k].name)
  {
    forall q, s | Earlier(q, at[k]) && OfferedAt(yaml, dirs, q, s) ensures s.name != offers[k].name {
      assert Within(q, |dirs|, 0);
      var j :| 0 <= j < |at| && at[j] == q;
      assert OfferedAt(yaml, dirs, at[j], offers[j]);
      assert j < k;
    }
  }

  lemma OfferedIsFound(yaml: string -> Option<Frontmatter>, dirs: seq<Listing>,
                       offers: seq<Skill>, at: seq<Place>, p: Place, s: Skill)
    requires OffersAt(yaml, dirs, |dirs|, 0, offers, at) && OfferedAt(yaml, dirs, p, s)
    ensures exists i :: 0 <= i < |FirstOfName(offers)| && FirstOfName(offers)[i].name == s.name
  {
    assert Within(p, |dirs|, 0);
    var j :| 0 <= j < |at| && at[j] == p;
    assert OfferedAt(yaml, dirs, at[j], offers[j]);
    NamesMembers(offers, s.name);
    NamesOnce(offers);
    NamesMembers(FirstOfName(offers), s.name);
  }

  /**
   Each discovered skill is offered by an entry of a readable directory, no entry before it, in an earlier
   directory or earlier in its own, offers its name; skills come in the order of their entries; and every
   offered name is discovered.
   */
  lemma DiscoveredExactly(yaml: string -> Option<Frontmatter>, dirs: seq<Listing>) returns (at: seq<Place>)
    ensures FoundAt(yaml, dirs, FirstOfName(Offers(yaml, dirs)), at)
    ensures FindsAll(yaml, dirs, FirstOfName(Offers(yaml, dirs)))
  {
    var offers := Offers(yaml, dirs);
    var found := FirstOfName(offers);
    assert dirs[..|dirs|] == dirs;
    var places := DirectoryPlaces(yaml, dirs, |dirs|);
    var ks := FirstOccurrenceWins(offers);
    at := seq(|ks|, i requires 0 <= i < |ks| => places[ks[i]]);
    forall i | 0 <= i < |found|
      ensures OfferedAt(yaml, dirs, at[i], found[i]) && NoneEarlier(yaml, dirs, at[i], found[i].name)
    {
      FirstIsNoneEarlier(yaml, dirs, offers, places, ks[i]);
    }
    forall p, s | OfferedAt(yaml, dirs, p, s) ensures exists i :: 0 <= i < |found| && found[i].name == s.name {
      OfferedIsFound(yaml, dirs, offers, places, p, s);
    }
  }

  // ---- Discover, then Merge ------------------------------------------------------------------------

  /** The trees Merge copies: for each discovered skill, the directory of its SKILL.md. */
  function Sources(skills: seq<Skill>, tree: Skill -> M.Tree): seq<M.Skill> {
    seq(|skills|, i requires 0 <= i < |skills| => M.Skill(skills[i].name, tree(skills[i])))
  }

  /**
   What Discover returns has no clash, so with well-formed names Merge succeeds exactly when the destination
   can be made, and then each mounted subtree is exactly its source tree.
   */
  lemma DiscoveredSkillsAreMounted(yaml: string -> Option<Frontmatter>, dirs: seq<Listing>, tree: Skill -> M.Tree,
                                   before: M.Files, now: M.Files, dest: M.Path)
    requires forall s :: s in FirstOfName(Offers(yaml, dirs)) ==> M.IsComponent(s.name)
    ensures var found := FirstOfName(Offers(yaml, dirs));
      var disk, mounts := M.Cleared(before, dest), M.Mounts(dest, Sources(found, tree));
      && (M.NoClashes(disk, mounts) <==> M.Fits(disk, dest, M.EMPTY_DIR))
      && (M.ShowsMounts(disk, now, mounts) ==> forall i, rel :: 0 <= i < |found| ==>
            M.At(now, dest + [found[i].name] + rel) == M.NodeAt(tree(found[i]), rel))
  {
    var found := FirstOfName(Offers(yaml, dirs));
    var sources := Sources(found, tree);
    NamesOnce(Offers(yaml, dirs));
    forall s | s in sources ensures M.IsComponent(s.name) {
      var i :| 0 <= i < |sources| && sources[i] == s;
      assert found[i] in found;
    }
    M.ClashesByName(before, dest, sources);
    if M.ShowsMounts(M.Cleared(before, dest), now, M.Mounts(dest, sources)) {
      forall i, rel | 0 <= i < |found|
        ensures M.At(now, dest + [found[i].name] + rel) == M.NodeAt(tree(found[i]), rel)
      {
        M.MergedByName(before, now, dest, sources, found[i].name, rel);
        M.UniqueSkillIsMounted(sources, i, rel);
      }
    }
  }
}
