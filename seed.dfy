/**
 * The seeding script scripts/seed.js: fills each empty collection with the site's starter documents
 * and creates the global site-content document when there is none. The ObjectIds the driver
 * generates for the inserted documents and the times `new Date()` returns are parameters.
 */
module Seed {
  import opened Wrappers
  import opened Documents
  import opened ContentStore

  // The longer starter texts.
  const NeonNexusText: string := "A high-performance trading platform with real-time analytics and a futuristic dark interface."
  const VoidInterfaceText: string := "Minimalist command-line based portfolio for developers who prefer the terminal look."
  const OriginParagraph1: string := "Initialized in the digital void, I've spent years synthesizing complex code into fluid interfaces. My core logic is built on innovation and precision."
  const OriginParagraph2: string := "I specialize in building high-performance decentralized systems, immersive 3D experiences, and robust architectures that stand the test of time (or bit rot)."

  /** The two starter projects, each stamped by its own `new Date()`. */
  function StarterProjects(now1: Millis, now2: Millis): seq<Doc>
  {
    [ map["title" := Str("Neon Nexus"),
          "description" := Str(NeonNexusText),
          "tags" := Str("Next.js, Three.js, GSAP"),
          "createdAt" := Date(now1)],
      map["title" := Str("Void Interface"),
          "description" := Str(VoidInterfaceText),
          "tags" := Str("TypeScript, Tailwind, Lucide"),
          "createdAt" := Date(now2)] ]
  }

  /** The four starter skill categories. */
  const StarterSkills: seq<Doc> :=
    [ map["name" := Str("Frontend"), "skills" := Arr([Str("React"), Str("Next.js"), Str("Three.js"), Str("Tailwind")])],
      map["name" := Str("Backend"), "skills" := Arr([Str("Node.js"), Str("PostgreSQL"), Str("Auth.js")])],
      map["name" := Str("Core"), "skills" := Arr([Str("TypeScript"), Str("JavaScript"), Str("Python"), Str("C++")])],
      map["name" := Str("Protocols"), "skills" := Arr([Str("API REST"), Str("GraphQL"), Str("WebSockets"), Str("gRPC")])] ]

  /** The starter site content, marked as the global document. */
  const StarterContent: Doc :=
    map["type" := GlobalType,
        "origin" := Obj(map[
          "title" := Str("MISSION_ORIGIN"),
          "operatorName" := Str("Operator_01"),
          "protocol" := Str("Full_Stack_Entity"),
          "description" := Arr([
            Str(OriginParagraph1),
            Str(OriginParagraph2)]),
          "xpYears" := Str("5+ YEARS"),
          "successRate" := Str("100%_COMMIT"),
          "image" := Str("/me.jpg")]),
        "contact" := Obj(map[
          "email" := Str("contact@example.com"),
          "cvUrl" := Str("#"),
          "discord" := Str("operator_01"),
          "twitter" := Str("titouan_dev"),
          "location" := Str("[HIDDEN]")])]

  /** `insertMany(docs)`: each document gets the next generated ObjectId as its `_id`. */
  function WithIds(docs: seq<Doc>, ids: seq<string>): (r: seq<Doc>)
    requires |ids| == |docs|
    ensures |r| == |docs|
    ensures forall i :: 0 <= i < |docs| ==> r[i] == docs[i]["_id" := Oid(ids[i])]
  {
    seq(|docs|, i requires 0 <= i < |docs| => docs[i]["_id" := Oid(ids[i])])
  }

  /** Pairwise distinct texts. */
  predicate Distinct(ids: seq<string>)
  {
    forall i, j :: 0 <= i < j < |ids| ==> ids[i] != ids[j]
  }

  /** A collection with no documents is filled with the starter documents; any other is left alone. */
  function SeedIfEmpty(c: seq<Doc>, starters: seq<Doc>): (r: seq<Doc>)
    ensures |c| == 0 ==> r == starters
    ensures |c| > 0 ==> r == c
  {
    if |c| == 0 then starters else c
  }

  /** The content collection gains the starter document only when it has no global document. */
  function SeedContent(c: seq<Doc>, contentId: string): (r: seq<Doc>)
    ensures FindGlobal(c).None? ==> r == c + [StarterContent["_id" := Oid(contentId)]]
    ensures FindGlobal(c).Some? ==> r == c
  {
    if FindGlobal(c).None? then c + [StarterContent["_id" := Oid(contentId)]] else c
  }

  /** The documents the script inserts carry no `id` field. */
  lemma StartersHaveNoId(now1: Millis, now2: Millis, projectIds: seq<string>, skillIds: seq<string>, contentId: string)
    requires |projectIds| == 2 && |skillIds| == 4
    ensures forall i :: 0 <= i < 2 ==> "id" !in WithIds(StarterProjects(now1, now2), projectIds)[i]
    ensures forall i :: 0 <= i < 4 ==> "id" !in WithIds(StarterSkills, skillIds)[i]
    ensures "id" !in StarterContent["_id" := Oid(contentId)]
  {
    var p := StarterProjects(now1, now2);
    assert "id" !in p[0] && "id" !in p[1];
    var s := StarterSkills;
    assert "id" !in s[0] && "id" !in s[1] && "id" !in s[2] && "id" !in s[3];
  }

  /**
   * The newest-first listing of the seeded projects: the second starter comes first exactly when its
   * `new Date()` is later than the first one's; on equal times the two stay in insertion order.
   */
  lemma StarterListingOrder(now1: Millis, now2: Millis, ids: seq<string>)
    requires |ids| == 2
    ensures var s := WithIds(StarterProjects(now1, now2), ids);
      SortByCreatedAtDesc(s) == if now1 < now2 then [s[1], s[0]] else s
  {
    var s := WithIds(StarterProjects(now1, now2), ids);
    assert CreatedAt(s[0]) == Date(now1) && CreatedAt(s[1]) == Date(now2);
    assert s[1..] == [s[1]];
    assert SortByCreatedAtDesc([s[1]]) == [s[1]] by {
      assert [s[1]][1..] == [];
    }
    if now1 < now2 {
      assert InsertByCreatedAt(s[0], [s[1]]) == [s[1]] + InsertByCreatedAt(s[0], [s[1]][1..]);
      assert [s[1]][1..] == [];
    } else {
      assert s == [s[0]] + [s[1]];
    }
  }

  /** After seeding the content, the global document is found, and a second seeding changes nothing. */
  lemma SeedContentSpec(content: seq<Doc>, contentId: string, contentId2: string)
    ensures FindGlobal(SeedContent(content, contentId)).Some?
    ensures FindGlobal(content).None? ==>
      FindGlobal(SeedContent(content, contentId)).value == StarterContent["_id" := Oid(contentId)]
    ensures SeedContent(SeedContent(content, contentId), contentId2) == SeedContent(content, contentId)
  {
    var c := SeedContent(content, contentId);
    if FindGlobal(content).None? {
      var d := StarterContent["_id" := Oid(contentId)];
      assert c[|content|] == d;
      assert d["type"] == GlobalType;
      forall j | 0 <= j < |content| ensures !Matches(c[j], "type", GlobalType) {
        assert c[j] == content[j];
      }
      assert FindFirst(c, "type", GlobalType) == Some(|content|);
    }
  }

  /** Seeding a collection twice is seeding it once, and afterwards it is not empty. */
  lemma SeedIfEmptyTwice(c: seq<Doc>, starters: seq<Doc>, starters2: seq<Doc>)
    requires |starters| > 0
    ensures |SeedIfEmpty(c, starters)| > 0
    ensures SeedIfEmpty(SeedIfEmpty(c, starters), starters2) == SeedIfEmpty(c, starters)
  {
  }

  /** Documents inserted under distinct generated ids have unique ids. */
  lemma WithIdsUnique(docs: seq<Doc>, ids: seq<string>)
    requires |ids| == |docs| && Distinct(ids)
    ensures UniqueIds(WithIds(docs, ids))
  {
  }

  lemma SeedIfEmptyKeepsIds(c: seq<Doc>, starters: seq<Doc>)
    requires UniqueIds(c) && UniqueIds(starters)
    ensures UniqueIds(SeedIfEmpty(c, starters))
  {
  }

  /** Adding the starter content under a fresh id keeps the content ids unique. */
  lemma SeedContentKeepsIds(content: seq<Doc>, contentId: string)
    requires UniqueIds(content) && !HasId(content, Oid(contentId))
    ensures UniqueIds(SeedContent(content, contentId))
  {
    var c := SeedContent(content, contentId);
    if FindGlobal(content).None? {
      forall j | 0 <= j < |content| ensures c[j] == content[j] {
      }
      assert c[|content|]["_id"] == Oid(contentId);
    }
  }

  /** Seeding keeps the ids of every collection unique, whatever the starter documents. */
  lemma SeedKeepsIds(projects: seq<Doc>, skills: seq<Doc>, content: seq<Doc>,
                     starterProjects: seq<Doc>, starterSkills: seq<Doc>,
                     projectIds: seq<string>, skillIds: seq<string>, contentId: string)
    requires UniqueIds(projects) && UniqueIds(skills) && UniqueIds(content)
    requires |projectIds| == |starterProjects| && |skillIds| == |starterSkills|
    requires Distinct(projectIds) && Distinct(skillIds) && !HasId(content, Oid(contentId))
    ensures UniqueIds(SeedIfEmpty(projects, WithIds(starterProjects, projectIds)))
    ensures UniqueIds(SeedIfEmpty(skills, WithIds(starterSkills, skillIds)))
    ensures UniqueIds(SeedContent(content, contentId))
  {
    WithIdsUnique(starterProjects, projectIds);
    WithIdsUnique(starterSkills, skillIds);
    SeedIfEmptyKeepsIds(projects, WithIds(starterProjects, projectIds));
    SeedIfEmptyKeepsIds(skills, WithIds(starterSkills, skillIds));
    SeedContentKeepsIds(content, contentId);
  }

  /**
   * `seed()` against the store. With no connection string the script exits before touching the
   * store; otherwise each collection is seeded as above. Failures of the connection are not modelled.
   */
  method Run(store: Store, uri: Option<string>, now1: Millis, now2: Millis,
             projectIds: seq<string>, skillIds: seq<string>, contentId: string)
    requires store.Valid()
    requires |projectIds| == 2 && |skillIds| == 4 && Distinct(projectIds) && Distinct(skillIds)
    requires !HasId(store.content, Oid(contentId))
    modifies store
    ensures store.Valid()
    ensures uri.None? || uri.value == "" ==> unchanged(store)
    ensures uri.Some? && uri.value != "" ==>
      && store.projects == SeedIfEmpty(old(store.projects), WithIds(StarterProjects(now1, now2), projectIds))
      && store.skills == SeedIfEmpty(old(store.skills), WithIds(StarterSkills, skillIds))
      && store.content == SeedContent(old(store.content), contentId)
  {
    if uri.None? || uri.value == "" {
      return;
    }
    var starterProjects, starterSkills := StarterProjects(now1, now2), StarterSkills;
    SeedKeepsIds(store.projects, store.skills, store.content, starterProjects, starterSkills,
                 projectIds, skillIds, contentId);
    store.projects, store.skills, store.content :=
      SeedIfEmpty(store.projects, WithIds(starterProjects, projectIds)),
      SeedIfEmpty(store.skills, WithIds(starterSkills, skillIds)),
      SeedContent(store.content, contentId);
  }
}
