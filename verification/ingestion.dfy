/** Cutting a document into the chunks that are embedded: `app/services/ingestion/chunker.py`. */
module Ingestion {
  import opened Text

  // ---------------------------------------------------------------------------------------
  // Cutting a document

  /** A section with the pieces the recursive splitter made of it. */
  datatype Section = Section(pieces: seq<string>, metadata: string)

  datatype Body = Body(content: string, metadata: string)

  datatype Chunk = Chunk(index: nat, content: string, metadata: string)

  /** Every piece that is more than white space, in order, trimmed, with its section's metadata. */
  function Bodies(sections: seq<Section>): seq<Body> {
    if sections == [] then []
    else InSection(sections[0].pieces, sections[0].metadata) + Bodies(sections[1..])
  }

  function InSection(pieces: seq<string>, metadata: string): seq<Body> {
    if pieces == [] then [] else Kept(pieces[0], metadata) + InSection(pieces[1..], metadata)
  }

  function Kept(piece: string, metadata: string): seq<Body> {
    var body := Trim(piece, PySpace);
    if body == "" then [] else [Body(body, metadata)]
  }

  function Numbered(bodies: seq<Body>): seq<Chunk> {
    seq(|bodies|, i requires 0 <= i < |bodies| => Chunk(i, bodies[i].content, bodies[i].metadata))
  }

  /** The ceiling is looked at only after a chunk was added, so one is always let through. */
  function Cut(sections: seq<Section>, ceiling: int): seq<Chunk> {
    var bodies := Bodies(sections);
    var limit := if ceiling < 1 then 1 else ceiling;
    Numbered(if |bodies| < limit then bodies else bodies[..limit])
  }

  ghost predicate WellCut(chunks: seq<Chunk>) {
    forall i :: 0 <= i < |chunks| ==>
      && chunks[i].index == i && chunks[i].content != ""
      && Trim(chunks[i].content, PySpace) == chunks[i].content
  }

  lemma {:induction false} BodiesAreTrimmed(sections: seq<Section>)
    ensures forall b :: b in Bodies(sections) ==> b.content != "" && Trim(b.content, PySpace) == b.content
  {
    if sections != [] {
      InSectionIsTrimmed(sections[0].pieces, sections[0].metadata);
      BodiesAreTrimmed(sections[1..]);
    }
  }

  lemma {:induction false} InSectionIsTrimmed(pieces: seq<string>, metadata: string)
    ensures forall b :: b in InSection(pieces, metadata) ==> b.content != "" && Trim(b.content, PySpace) == b.content
  {
    if pieces != [] {
      InSectionIsTrimmed(pieces[1..], metadata);
      var body := Trim(pieces[0], PySpace);
      assert body != "" ==> Trim(body, PySpace) == body;
    }
  }

  /** Chunks are numbered from zero and never blank; there are none only when there is no text. */
  lemma {:induction false} CutShape(sections: seq<Section>, ceiling: int)
    ensures WellCut(Cut(sections, ceiling))
    ensures ceiling >= 1 ==> |Cut(sections, ceiling)| <= ceiling
    ensures Cut(sections, ceiling) == [] <==> Bodies(sections) == []
  {
    BodiesAreTrimmed(sections);
    hide Trim, Bodies;
    var bodies, chunks := Bodies(sections), Cut(sections, ceiling);
    forall i | 0 <= i < |chunks|
      ensures chunks[i].index == i && Body(chunks[i].content, chunks[i].metadata) in bodies
    {
      assert bodies[i] in bodies;
    }
  }

  lemma NumberedSnoc(bodies: seq<Body>, b: Body)
    ensures Numbered(bodies + [b]) == Numbered(bodies) + [Chunk(|bodies|, b.content, b.metadata)]
  {
  }

  lemma {:induction false} BodiesAppend(before: seq<Section>, section: Section)
    ensures Bodies(before + [section]) == Bodies(before) + InSection(section.pieces, section.metadata)
  {
    hide InSection;
    if before == [] {
      assert before + [section] == [section];
    } else {
      assert (before + [section])[1..] == before[1..] + [section];
      BodiesAppend(before[1..], section);
    }
  }

  lemma {:induction false} InSectionAppend(before: seq<string>, piece: string, metadata: string)
    ensures InSection(before + [piece], metadata) == InSection(before, metadata) + Kept(piece, metadata)
  {
    hide Kept;
    if before == [] {
      assert before + [piece] == [piece];
    } else {
      assert (before + [piece])[1..] == before[1..] + [piece];
      InSectionAppend(before[1..], piece, metadata);
    }
  }

  // ---------------------------------------------------------------------------------------
  // Which pieces become chunks

  /** A piece: which section, and which of its pieces. */
  datatype Place = Place(section: nat, piece: nat)

  predicate Before(a: Place, b: Place) {
    a.section < b.section || (a.section == b.section && a.piece < b.piece)
  }

  predicate HasText(sections: seq<Section>, at: Place) {
    && at.section < |sections| && at.piece < |sections[at.section].pieces|
    && Trim(sections[at.section].pieces[at.piece], PySpace) != ""
  }

  /** The piece at `at`, trimmed, with its section's metadata. */
  predicate Holds(sections: seq<Section>, at: Place, b: Body) {
    && HasText(sections, at) && b.content == Trim(sections[at.section].pieces[at.piece], PySpace)
    && b.metadata == sections[at.section].metadata
  }

  /** `places` are the pieces with text before `end`, in order, and `bodies` what they hold. */
  ghost predicate Located(sections: seq<Section>, end: Place, places: seq<Place>, bodies: seq<Body>) {
    && |places| == |bodies|
    && (forall n :: 0 <= n < |places| ==> Holds(sections, places[n], bodies[n]) && Before(places[n], end))
    && (forall m, n :: 0 <= m < n < |places| ==> Before(places[m], places[n]))
    && (forall at :: HasText(sections, at) && Before(at, end) ==> at in places)
  }

  lemma {:induction false} LocateIn(sections: seq<Section>, s: nat, p: nat, places: seq<Place>, bodies: seq<Body>)
    returns (all: seq<Place>)
    requires s < |sections| && p <= |sections[s].pieces|
    requires Located(sections, Place(s, 0), places, bodies)
    ensures Located(sections, Place(s, p), all, bodies + InSection(sections[s].pieces[..p], sections[s].metadata))
  {
    hide *;
    var pieces, metadata := sections[s].pieces, sections[s].metadata;
    if p == 0 {
      all := places;
      NoPieces(metadata);
      assert pieces[..0] == [] && bodies + [] == bodies;
    } else {
      var before := LocateIn(sections, s, p - 1, places, bodies);
      var kept := Kept(pieces[p - 1], metadata);
      assert pieces[..p] == pieces[..p - 1] + [pieces[p - 1]];
      InSectionAppend(pieces[..p - 1], pieces[p - 1], metadata);
      var here := bodies + InSection(pieces[..p - 1], metadata);
      assert here + kept == bodies + InSection(pieces[..p], metadata);
      LocateOne(sections, s, p - 1, before, here);
      if kept == [] {
        all := before;
        assert here + kept == here;
      } else {
        all := before + [Place(s, p - 1)];
      }
    }
  }

  lemma NoPieces(metadata: string)
    ensures InSection([], metadata) == []
  {
  }

  lemma LocateOne(sections: seq<Section>, s: nat, p: nat, places: seq<Place>, bodies: seq<Body>)
    requires s < |sections| && p < |sections[s].pieces| && Located(sections, Place(s, p), places, bodies)
    ensures var kept := Kept(sections[s].pieces[p], sections[s].metadata);
            && (|kept| == 0 ==> Located(sections, Place(s, p + 1), places, bodies))
            && (|kept| != 0 ==> Located(sections, Place(s, p + 1), places + [Place(s, p)], bodies + kept))
  {
    hide *;
    var kept := Kept(sections[s].pieces[p], sections[s].metadata);
    KeptHolds(sections, Place(s, p));
    if |kept| == 0 {
      MoveEnd(sections, Place(s, p), places, bodies);
    } else {
      MoveEndOver(sections, Place(s, p), places, bodies, kept);
    }
  }

  lemma KeptHolds(sections: seq<Section>, at: Place)
    requires at.section < |sections| && at.piece < |sections[at.section].pieces|
    ensures var kept := Kept(sections[at.section].pieces[at.piece], sections[at.section].metadata);
            if HasText(sections, at) then |kept| == 1 && Holds(sections, at, kept[0]) else |kept| == 0
  {
  }

  lemma MoveEnd(sections: seq<Section>, at: Place, places: seq<Place>, bodies: seq<Body>)
    requires Located(sections, at, places, bodies) && !HasText(sections, at)
    ensures Located(sections, Place(at.section, at.piece + 1), places, bodies)
  {
    hide HasText, Holds;
    forall a | HasText(sections, a) && Before(a, Place(at.section, at.piece + 1))
      ensures Before(a, at)
    {
      assert a == Place(a.section, a.piece) && at == Place(at.section, at.piece);
    }
  }

  lemma MoveEndOver(sections: seq<Section>, at: Place, places: seq<Place>, bodies: seq<Body>, kept: seq<Body>)
    requires Located(sections, at, places, bodies) && |kept| == 1 && Holds(sections, at, kept[0])
    ensures Located(sections, Place(at.section, at.piece + 1), places + [at], bodies + kept)
  {
    hide HasText, Holds;
    var all, end := places + [at], Place(at.section, at.piece + 1);
    assert all[|places|] == at;
    forall a | HasText(sections, a) && Before(a, end)
      ensures a in all
    {
      if a != at {
        assert Before(a, at);
        assert a in places;
      }
    }
  }

  lemma {:induction false} Locate(sections: seq<Section>, s: nat) returns (places: seq<Place>)
    requires s <= |sections|
    ensures Located(sections, Place(s, 0), places, Bodies(sections[..s]))
  {
    hide *;
    if s == 0 {
      places := [];
      NothingLocated(sections);
    } else {
      var before := Locate(sections, s - 1);
      var section := sections[s - 1];
      places := LocateIn(sections, s - 1, |section.pieces|, before, Bodies(sections[..s - 1]));
      assert section.pieces[..|section.pieces|] == section.pieces;
      assert sections[..s] == sections[..s - 1] + [section];
      BodiesAppend(sections[..s - 1], section);
      NextSection(sections, s - 1, places, Bodies(sections[..s]));
    }
  }

  lemma NothingLocated(sections: seq<Section>)
    ensures Located(sections, Place(0, 0), [], Bodies(sections[..0]))
  {
    assert sections[..0] == [] && Bodies([]) == [];
    hide HasText, Holds, Bodies;
  }

  lemma NextSection(sections: seq<Section>, s: nat, places: seq<Place>, bodies: seq<Body>)
    requires s < |sections| && Located(sections, Place(s, |sections[s].pieces|), places, bodies)
    ensures Located(sections, Place(s + 1, 0), places, bodies)
  {
    var end := Place(s, |sections[s].pieces|);
    forall at | HasText(sections, at) && Before(at, Place(s + 1, 0))
      ensures Before(at, end)
    {
    }
    hide HasText, Holds;
  }

  /** The chunks are the pieces with text, in the order of the document, numbered and trimmed,
      each with its section's metadata: every one of them, unless the ceiling was reached, and
      then the first so many. A ceiling below one counts as one. */
  ghost predicate CutFrom(sections: seq<Section>, ceiling: int, chunks: seq<Chunk>, places: seq<Place>) {
    && |chunks| == |places| <= (if ceiling < 1 then 1 else ceiling)
    && (forall n :: 0 <= n < |chunks| ==>
          chunks[n].index == n && Holds(sections, places[n], Body(chunks[n].content, chunks[n].metadata)))
    && (forall m, n :: 0 <= m < n < |places| ==> Before(places[m], places[n]))
    && (forall at :: HasText(sections, at) && at !in places ==>
          |chunks| == (if ceiling < 1 then 1 else ceiling) && forall n :: 0 <= n < |places| ==> Before(places[n], at))
  }

  lemma {:induction false} CutCovers(sections: seq<Section>, ceiling: int)
    ensures exists places: seq<Place> :: CutFrom(sections, ceiling, Cut(sections, ceiling), places)
  {
    var all := Locate(sections, |sections|);
    assert sections[..|sections|] == sections;
    hide *;
    CutIsFirst(sections, ceiling);
    FirstLocated(sections, all, Bodies(sections), ceiling, Cut(sections, ceiling));
  }

  lemma CutIsFirst(sections: seq<Section>, ceiling: int)
    ensures var chunks, bodies, limit := Cut(sections, ceiling), Bodies(sections), if ceiling < 1 then 1 else ceiling;
            && |chunks| == (if |bodies| < limit then |bodies| else limit)
            && forall n :: 0 <= n < |chunks| ==> chunks[n] == Chunk(n, bodies[n].content, bodies[n].metadata)
  {
    hide Bodies;
  }

  lemma FirstLocated(sections: seq<Section>, all: seq<Place>, bodies: seq<Body>, ceiling: int, chunks: seq<Chunk>)
    requires Located(sections, Place(|sections|, 0), all, bodies)
    requires var limit := if ceiling < 1 then 1 else ceiling; |chunks| == if |bodies| < limit then |bodies| else limit
    requires forall n :: 0 <= n < |chunks| ==> chunks[n] == Chunk(n, bodies[n].content, bodies[n].metadata)
    ensures CutFrom(sections, ceiling, chunks, all[..|chunks|])
  {
    hide Holds, HasText;
    var places := all[..|chunks|];
    forall at | HasText(sections, at) && at !in places
      ensures |chunks| == (if ceiling < 1 then 1 else ceiling)
      ensures forall n :: 0 <= n < |places| ==> Before(places[n], at)
    {
      InDocument(sections, at);
      assert at in all;
      assert all == places + all[|chunks|..];
      assert at in all[|chunks|..];
      var k :| 0 <= k < |all[|chunks|..]| && all[|chunks|..][k] == at;
      assert all[|chunks| + k] == at;
    }
    forall n | 0 <= n < |chunks|
      ensures chunks[n].index == n && Holds(sections, places[n], Body(chunks[n].content, chunks[n].metadata))
    {
      assert Holds(sections, all[n], bodies[n]);
    }
  }

  lemma InDocument(sections: seq<Section>, at: Place)
    requires HasText(sections, at)
    ensures Before(at, Place(|sections|, 0))
  {
  }

  /** Where the loop over one section's pieces stands. */
  ghost predicate SoFar(sections: seq<Section>, s: nat, p: nat, chunks: seq<Chunk>) {
    && s < |sections| && p <= |sections[s].pieces|
    && chunks == Numbered(Bodies(sections[..s]) + InSection(sections[s].pieces[..p], sections[s].metadata))
  }

  lemma {:induction false} SectionDone(sections: seq<Section>, s: nat, chunks: seq<Chunk>)
    requires s < |sections| && SoFar(sections, s, |sections[s].pieces|, chunks)
    ensures chunks == Numbered(Bodies(sections[..s + 1]))
  {
    hide Numbered, Bodies, InSection;
    assert sections[s].pieces[..|sections[s].pieces|] == sections[s].pieces;
    assert sections[..s + 1] == sections[..s] + [sections[s]];
    BodiesAppend(sections[..s], sections[s]);
  }

  lemma {:induction false} PieceDone(sections: seq<Section>, s: nat, p: nat, chunks: seq<Chunk>)
    requires s < |sections| && p < |sections[s].pieces| && SoFar(sections, s, p, chunks)
    ensures var kept := Kept(sections[s].pieces[p], sections[s].metadata);
            SoFar(sections, s, p + 1,
                  if kept == [] then chunks else chunks + [Chunk(|chunks|, kept[0].content, kept[0].metadata)])
  {
    hide Kept;
    var section := sections[s];
    var kept := Kept(section.pieces[p], section.metadata);
    var before, here := Bodies(sections[..s]), InSection(section.pieces[..p], section.metadata);
    assert section.pieces[..p + 1] == section.pieces[..p] + [section.pieces[p]];
    InSectionAppend(section.pieces[..p], section.pieces[p], section.metadata);
    assert before + (here + kept) == (before + here) + kept;
    AtMostOneKept(section.pieces[p], section.metadata);
    if kept == [] {
      assert (before + here) + kept == before + here;
    } else {
      NumberedSnoc(before + here, kept[0]);
      assert kept == [kept[0]];
    }
  }

  lemma AtMostOneKept(piece: string, metadata: string)
    ensures |Kept(piece, metadata)| <= 1
  {
  }

  /** Stopping early keeps a prefix of what there would have been. */
  lemma {:induction false} PrefixAtPiece(sections: seq<Section>, s: nat, p: nat, chunks: seq<Chunk>)
    requires SoFar(sections, s, p, chunks)
    ensures |chunks| <= |Bodies(sections)| && chunks == Numbered(Bodies(sections)[..|chunks|])
  {
    hide Bodies, InSection, Numbered;
    var section := sections[s];
    SplitSections(sections, s);
    SplitPieces(section.pieces, section.metadata, p);
    var before, here := Bodies(sections[..s]), InSection(section.pieces[..p], section.metadata);
    FourParts(before, here, InSection(section.pieces[p..], section.metadata), Bodies(sections[s + 1..]));
    NumberedLength(before + here);
  }

  lemma FourParts(a: seq<Body>, b: seq<Body>, c: seq<Body>, d: seq<Body>)
    ensures |a + b| <= |a + ((b + c) + d)| && (a + ((b + c) + d))[..|a + b|] == a + b
  {
  }

  lemma {:induction false} SplitSections(sections: seq<Section>, s: nat)
    requires s < |sections|
    ensures Bodies(sections) == Bodies(sections[..s]) +
              (InSection(sections[s].pieces, sections[s].metadata) + Bodies(sections[s + 1..]))
  {
    hide InSection;
    if s == 0 {
      assert sections[..0] == [];
    } else {
      SplitSections(sections[1..], s - 1);
      assert sections[1..][..s - 1] == sections[..s][1..];
      assert sections[1..][s..] == sections[s + 1..];
    }
  }

  lemma {:induction false} SplitPieces(pieces: seq<string>, metadata: string, p: nat)
    requires p <= |pieces|
    ensures InSection(pieces, metadata) == InSection(pieces[..p], metadata) + InSection(pieces[p..], metadata)
  {
    hide Kept;
    if p == 0 {
      assert pieces[..0] == [] && pieces[0..] == pieces;
    } else {
      SplitPieces(pieces[1..], metadata, p - 1);
      assert pieces[1..][..p - 1] == pieces[..p][1..];
      assert pieces[1..][p - 1..] == pieces[p..];
    }
  }

  /** `chunk_sections` */
  method ChunkSections(sections: seq<Section>, ceiling: int) returns (chunks: seq<Chunk>)
    ensures chunks == Cut(sections, ceiling)
  {
    hide Kept, InSection, Bodies, Numbered, SoFar, Trim;
    chunks := [];
    NothingYet();
    for s := 0 to |sections|
      invariant chunks == Numbered(Bodies(sections[..s]))
      invariant chunks == [] || |chunks| < ceiling
    {
      StartSection(sections, s, chunks);
      for p := 0 to |sections[s].pieces|
        invariant SoFar(sections, s, p, chunks)
        invariant chunks == [] || |chunks| < ceiling
      {
        PieceDone(sections, s, p, chunks);
        KeptIs(sections[s].pieces[p], sections[s].metadata);
        var body := Trim(sections[s].pieces[p], PySpace);
        if body == "" {
          continue;
        }
        chunks := chunks + [Chunk(|chunks|, body, sections[s].metadata)];
        if |chunks| >= ceiling {
          PrefixAtPiece(sections, s, p + 1, chunks);
          NumberedLength(Bodies(sections));
          assert Bodies(sections)[..|Bodies(sections)|] == Bodies(sections);
          return;
        }
      }
      SectionDone(sections, s, chunks);
    }
    assert sections[..|sections|] == sections;
    NumberedLength(Bodies(sections));
  }

  lemma NothingYet()
    ensures Numbered(Bodies([])) == []
  {
  }

  lemma {:induction false} StartSection(sections: seq<Section>, s: nat, chunks: seq<Chunk>)
    requires s < |sections| && chunks == Numbered(Bodies(sections[..s]))
    ensures SoFar(sections, s, 0, chunks)
  {
    assert Bodies(sections[..s]) + InSection([], sections[s].metadata) == Bodies(sections[..s]);
  }

  lemma KeptIs(piece: string, metadata: string)
    ensures var body := Trim(piece, PySpace);
            Kept(piece, metadata) == if body == "" then [] else [Body(body, metadata)]
  {
  }

  lemma NumberedLength(bodies: seq<Body>)
    ensures |Numbered(bodies)| == |bodies|
  {
  }
}
