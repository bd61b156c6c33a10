/**
 * AnimEngine_Spine: Adventure Creator's animation engine for Spine
 * characters.  It turns AC's standard animations (idle, walk, run, talk) and
 * the "Character: Animate" action into requests to the character's
 * DirectionMapper, saves and restores the standard clip names, and lists the
 * animations a character's settings expect.
 */
module SpineEngine {
  import opened Wrappers
  import opened Spine
  import opened DirectionMapping
  import opened Completion

  datatype CharState = Idle | Custom | Move | Decelerate
  datatype AnimMethodChar = PlayCustom | StopCustom | ResetToIdle | SetStandard
  datatype AnimStandard = Idle | Walk | Run | Talk
  datatype FrameFlipping = NoFlipping | LeftMirrorsRight | RightMirrorsLeft
  datatype TurningStyle = Linear | Script
  datatype AudioClip = AudioClip(id: nat)

  /** The clip played on the head track while a custom animation hides the head. */
  const HideHeadClip := "HideHead"

  // ---------------------------------------------------------------------------
  // The character and its standard animations

  /** The four standard clip names of a character. */
  datatype ClipNames = ClipNames(idle: string, walk: string, run: string, talk: string)

  /** What a SetStandard action may change: the clip names, the two speed scales and the two sounds. */
  datatype Standards = Standards(clips: ClipNames, walkSpeedScale: real, runSpeedScale: real,
                                 walkSound: Option<AudioClip>, runSound: Option<AudioClip>)

  function ClipOf(clips: ClipNames, standard: AnimStandard): string
  {
    match standard
    case Idle => clips.idle
    case Walk => clips.walk
    case Run => clips.run
    case Talk => clips.talk
  }

  /**
   * The fields of AC's Char that the engine reads or writes.  Null clip names
   * are represented by "".  GetSpriteDirection() and
   * spriteDirectionData.HasDirections() are AC computations; their current
   * answers are the fields spriteDirection and hasDirections.
   */
  class Char {
    var idleAnimSprite: string
    var walkAnimSprite: string
    var runAnimSprite: string
    var talkAnimSprite: string
    var walkSpeedScale: real
    var runSpeedScale: real
    var walkSound: Option<AudioClip>
    var runSound: Option<AudioClip>
    var charState: CharState
    var separateTalkingLayer: bool
    var headLayer: int
    var isTalking: bool
    var frameFlipping: FrameFlipping
    var hasDirections: bool
    var directionSuffixes: seq<string>
    var spriteDirection: string

    function Clips(): ClipNames
      reads this
    {
      ClipNames(idleAnimSprite, walkAnimSprite, runAnimSprite, talkAnimSprite)
    }

    function Settings(): Standards
      reads this
    {
      Standards(Clips(), walkSpeedScale, runSpeedScale, walkSound, runSound)
    }
  }

  // ---------------------------------------------------------------------------
  // Saving and loading

  datatype PlayerData = PlayerData(playerIdleAnim: string, playerWalkAnim: string, playerRunAnim: string, playerTalkAnim: string)
  datatype NPCData = NPCData(idleAnim: string, walkAnim: string, talkAnim: string, runAnim: string)

  /** The clip names LoadPlayerData restores from a record. */
  function PlayerClips(d: PlayerData): ClipNames
  {
    ClipNames(d.playerIdleAnim, d.playerWalkAnim, d.playerRunAnim, d.playerTalkAnim)
  }

  /** The clip names LoadNPCData restores from a record. */
  function NPCClips(d: NPCData): ClipNames
  {
    ClipNames(d.idleAnim, d.walkAnim, d.runAnim, d.talkAnim)
  }

  /** Loading the returned record restores exactly the player's current clip names. */
  function SavePlayerData(playerData: PlayerData, player: Char): (r: PlayerData)
    reads player
    ensures PlayerClips(r) == player.Clips()
  {
    playerData.(playerIdleAnim := player.idleAnimSprite, playerWalkAnim := player.walkAnimSprite,
                playerRunAnim := player.runAnimSprite, playerTalkAnim := player.talkAnimSprite)
  }

  method LoadPlayerData(playerData: PlayerData, player: Char)
    modifies player`idleAnimSprite, player`walkAnimSprite, player`runAnimSprite, player`talkAnimSprite
    ensures player.Clips() == PlayerClips(playerData)
  {
    player.idleAnimSprite := playerData.playerIdleAnim;
    player.walkAnimSprite := playerData.playerWalkAnim;
    player.talkAnimSprite := playerData.playerTalkAnim;
    player.runAnimSprite := playerData.playerRunAnim;
  }

  /** Loading the returned record restores exactly the NPC's current clip names. */
  function SaveNPCData(npcData: NPCData, npc: Char): (r: NPCData)
    reads npc
    ensures NPCClips(r) == npc.Clips()
  {
    npcData.(idleAnim := npc.idleAnimSprite, walkAnim := npc.walkAnimSprite,
             talkAnim := npc.talkAnimSprite, runAnim := npc.runAnimSprite)
  }

  method LoadNPCData(npcData: NPCData, npc: Char)
    modifies npc`idleAnimSprite, npc`walkAnimSprite, npc`runAnimSprite, npc`talkAnimSprite
    ensures npc.Clips() == NPCClips(npcData)
  {
    npc.idleAnimSprite := npcData.idleAnim;
    npc.walkAnimSprite := npcData.walkAnim;
    npc.talkAnimSprite := npcData.talkAnim;
    npc.runAnimSprite := npcData.runAnim;
  }

  /** Saving a player and loading the record into another character copies the four clip names. */
  method TransferPlayerClips(player: Char, target: Char)
    modifies target`idleAnimSprite, target`walkAnimSprite, target`runAnimSprite, target`talkAnimSprite
    ensures target.Clips() == old(player.Clips())
  {
    var saved := SavePlayerData(PlayerData("", "", "", ""), player);
    LoadPlayerData(saved, target);
  }

  // ---------------------------------------------------------------------------
  // Standard animations: the requests PlayIdle, PlayWalk, PlayRun and PlayTalk
  // make of the DirectionMapper, in order.  Face(s) is SetCurrentDirection(s),
  // Play(c, t, l) is PlayClip(c, t, l).

  datatype Request = Face(suffix: string) | Play(clip: string, trackIndex: int, loop: bool)

  /** No request plays an empty clip name. */
  predicate NoEmptyClip(rs: seq<Request>)
  {
    forall i :: 0 <= i < |rs| && rs[i].Play? ==> rs[i].clip != ""
  }

  /** The clips requested on one track, in order. */
  function ClipsOn(rs: seq<Request>, trackIndex: int): seq<string>
    decreases |rs|
  {
    if |rs| == 0 then []
    else (if rs[0].Play? && rs[0].trackIndex == trackIndex then [rs[0].clip] else []) + ClipsOn(rs[1..], trackIndex)
  }

  lemma {:induction false} ClipsOnAppend(a: seq<Request>, b: seq<Request>, trackIndex: int)
    ensures ClipsOn(a + b, trackIndex) == ClipsOn(a, trackIndex) + ClipsOn(b, trackIndex)
    decreases |a|
  {
    if |a| > 0 {
      assert (a + b)[0] == a[0];
      assert (a + b)[1..] == a[1..] + b;
      ClipsOnAppend(a[1..], b, trackIndex);
    } else {
      assert a + b == b;
    }
  }

  /** PlayStandardAnim: face the sprite direction, then play a non-empty clip on track 0. */
  function PlayStandardAnim(c: Char, clip: string): (r: seq<Request>)
    reads c
    ensures |r| > 0 && r[0] == Face(c.spriteDirection) && NoEmptyClip(r)
    ensures ClipsOn(r, 0) == (if clip != "" then [clip] else [])
  {
    var play := if clip != "" then [Play(clip, 0, true)] else [];
    assert ([Face(c.spriteDirection)] + play)[1..] == play;
    assert clip != "" ==> play[1..] == [];
    assert ClipsOn([Face(c.spriteDirection)] + play, 0) == ClipsOn(play, 0);
    [Face(c.spriteDirection)] + play
  }

  /** PlayHeadAnim: play a non-empty clip on the head track. */
  function PlayHeadAnim(c: Char, clip: string): (r: seq<Request>)
    reads c
    ensures NoEmptyClip(r)
    ensures forall i :: 0 <= i < |r| ==> r[i] == Play(clip, c.headLayer, true)
    ensures |r| == (if clip != "" then 1 else 0)
  {
    if clip != "" then [Play(clip, c.headLayer, true)] else []
  }

  /** The clip the head track should show: talk while talking, idle otherwise. */
  function HeadClip(c: Char): string
    reads c
  {
    if c.isTalking then c.talkAnimSprite else c.idleAnimSprite
  }

  /** PlaySeparateHead: only with a separate talking layer, and never an empty clip. */
  function PlaySeparateHead(c: Char): (r: seq<Request>)
    reads c
    ensures NoEmptyClip(r)
    ensures !c.separateTalkingLayer ==> r == []
    ensures c.separateTalkingLayer ==> r == (if HeadClip(c) != "" then [Play(HeadClip(c), c.headLayer, true)] else [])
  {
    if c.separateTalkingLayer then PlayHeadAnim(c, HeadClip(c)) else []
  }

  lemma NoEmptyClipAppend(a: seq<Request>, b: seq<Request>)
    requires NoEmptyClip(a) && NoEmptyClip(b)
    ensures NoEmptyClip(a + b)
  {
    assert forall i :: |a| <= i < |a + b| ==> (a + b)[i] == b[i - |a|];
  }

  function PlayIdle(c: Char): (r: seq<Request>)
    reads c
    ensures |r| > 0 && r[0] == Face(c.spriteDirection) && NoEmptyClip(r)
  {
    NoEmptyClipAppend(PlayStandardAnim(c, c.idleAnimSprite), PlaySeparateHead(c));
    PlayStandardAnim(c, c.idleAnimSprite) + PlaySeparateHead(c)
  }

  function PlayWalk(c: Char): (r: seq<Request>)
    reads c
    ensures |r| > 0 && r[0] == Face(c.spriteDirection) && NoEmptyClip(r)
  {
    NoEmptyClipAppend(PlayStandardAnim(c, c.walkAnimSprite), PlaySeparateHead(c));
    PlayStandardAnim(c, c.walkAnimSprite) + PlaySeparateHead(c)
  }

  /** Without a run clip, PlayRun plays the walk animation (and asks for the head a second time). */
  function PlayRun(c: Char): (r: seq<Request>)
    reads c
    ensures |r| > 0 && r[0] == Face(c.spriteDirection) && NoEmptyClip(r)
  {
    var body := if c.runAnimSprite != "" then PlayStandardAnim(c, c.runAnimSprite) else PlayWalk(c);
    NoEmptyClipAppend(body, PlaySeparateHead(c));
    body + PlaySeparateHead(c)
  }

  /** Without a talk clip, PlayTalk is PlayIdle. */
  function PlayTalk(c: Char): (r: seq<Request>)
    reads c
    ensures |r| > 0 && r[0] == Face(c.spriteDirection) && NoEmptyClip(r)
  {
    if c.talkAnimSprite != "" then
      NoEmptyClipAppend(PlayStandardAnim(c, c.talkAnimSprite), PlaySeparateHead(c));
      PlayStandardAnim(c, c.talkAnimSprite) + PlaySeparateHead(c)
    else PlayIdle(c)
  }

  /** The base track (0) of a standard animation gets the clip when it is named, and nothing else. */
  lemma StandardBaseTrack(c: Char, clip: string)
    requires c.headLayer != 0
    ensures ClipsOn(PlayStandardAnim(c, clip) + PlaySeparateHead(c), 0) == (if clip != "" then [clip] else [])
  {
    ClipsOnAppend(PlayStandardAnim(c, clip), PlaySeparateHead(c), 0);
    var head := PlaySeparateHead(c);
    if |head| > 0 {
      assert head[1..] == [];
    }
  }

  /** On the base track PlayRun plays the run clip, falling back to the walk clip when run is unnamed. */
  lemma PlayRunBaseTrack(c: Char)
    requires c.headLayer != 0
    ensures ClipsOn(PlayRun(c), 0)
              == (if c.runAnimSprite != "" then [c.runAnimSprite]
                  else if c.walkAnimSprite != "" then [c.walkAnimSprite] else [])
  {
    var head := PlaySeparateHead(c);
    StandardBaseTrack(c, c.runAnimSprite);
    StandardBaseTrack(c, c.walkAnimSprite);
    if c.runAnimSprite != "" {
      ClipsOnAppend(PlayStandardAnim(c, c.runAnimSprite) + head, [], 0);
      ClipsOnAppend(PlayStandardAnim(c, c.runAnimSprite), head, 0);
    } else {
      ClipsOnAppend(PlayWalk(c), head, 0);
      if |head| > 0 {
        assert head[1..] == [];
      }
    }
  }

  /** On the base track PlayTalk plays the talk clip, falling back to the idle clip when talk is unnamed. */
  lemma PlayTalkBaseTrack(c: Char)
    requires c.headLayer != 0
    ensures ClipsOn(PlayTalk(c), 0)
              == (if c.talkAnimSprite != "" then [c.talkAnimSprite]
                  else if c.idleAnimSprite != "" then [c.idleAnimSprite] else [])
  {
    StandardBaseTrack(c, c.talkAnimSprite);
    StandardBaseTrack(c, c.idleAnimSprite);
  }

  /** PlayStandardAnim plays only on track 0. */
  lemma StandardOffTrack(c: Char, clip: string, trackIndex: int)
    requires trackIndex != 0
    ensures ClipsOn(PlayStandardAnim(c, clip), trackIndex) == []
  {
    var r := PlayStandardAnim(c, clip);
    assert ClipsOn(r, trackIndex) == ClipsOn(r[1..], trackIndex);
    if |r| > 1 {
      assert r[1..][1..] == [];
    }
  }

  /**
   * The head track gets the talk clip while talking and the idle clip
   * otherwise, only with a separate talking layer and never an empty name.
   */
  lemma PlayIdleHeadTrack(c: Char)
    requires c.headLayer != 0
    ensures ClipsOn(PlayIdle(c), c.headLayer)
              == (if c.separateTalkingLayer && HeadClip(c) != "" then [HeadClip(c)] else [])
  {
    ClipsOnAppend(PlayStandardAnim(c, c.idleAnimSprite), PlaySeparateHead(c), c.headLayer);
    StandardOffTrack(c, c.idleAnimSprite, c.headLayer);
    var head := PlaySeparateHead(c);
    if |head| > 0 {
      assert head[1..] == [];
    }
  }

  // ---------------------------------------------------------------------------
  // The expected-animation listing (ShowExpected)

  datatype Line = Blank | Header(suffix: string) | Expected(clip: string, trackIndex: int)

  function DigitChar(d: nat): char
    requires d < 10
  {
    "0123456789"[d]
  }

  function NatToString(n: nat): string
    decreases n
  {
    if n < 10 then [DigitChar(n)] else NatToString(n / 10) + [DigitChar(n % 10)]
  }

  /** int.ToString() */
  function IntToString(i: int): string
  {
    if i < 0 then "-" + NatToString(-i) else NatToString(i)
  }

  function LineText(l: Line): string
  {
    match l
    case Blank => "\n"
    case Header(s) => "\nFor Skeleton data (" + s + "):\n"
    case Expected(clip, t) => clip + ("   (" + IntToString(t) + ")\n")
  }

  function Render(lines: seq<Line>): string
    decreases |lines|
  {
    if |lines| == 0 then "" else Render(lines[..|lines| - 1]) + LineText(lines[|lines| - 1])
  }

  lemma {:induction false} RenderAppend(a: seq<Line>, b: seq<Line>)
    ensures Render(a + b) == Render(a) + Render(b)
    decreases |b|
  {
    if |b| > 0 {
      assert (a + b)[..|a + b| - 1] == a + b[..|b| - 1];
      RenderAppend(a, b[..|b| - 1]);
    } else {
      assert a + b == a;
    }
  }

  function IfNamed(clip: string, trackIndex: int): seq<Line>
  {
    if clip != "" then [Expected(clip, trackIndex)] else []
  }

  lemma ZeroText()
    ensures IntToString(0) == "0"
  {
    assert NatToString(0) == [DigitChar(0)];
  }

  /** One line of the listing: appending the text of a named clip extends the rendered lines by it. */
  lemma AppendStep(prefix: string, lines: seq<Line>, r: string, clip: string, trackIndex: int, tail: string)
    requires r == prefix + Render(lines)
    requires tail == "   (" + IntToString(trackIndex) + ")\n"
    ensures (if clip != "" then r + (clip + tail) else r) == prefix + Render(lines + IfNamed(clip, trackIndex))
  {
    if clip != "" {
      var all := lines + IfNamed(clip, trackIndex);
      assert all[..|all| - 1] == lines;
      assert Render(all) == Render(lines) + (clip + tail);
      Concat3(prefix, Render(lines), clip + tail);
    } else {
      assert lines + IfNamed(clip, trackIndex) == lines;
    }
  }

  lemma Concat3(a: string, b: string, c: string)
    ensures (a + b) + c == a + (b + c)
  {
  }

  /** The animations one skeleton must contain. */
  function ExpectedBlock(c: Char): seq<Line>
    reads c
  {
    var base := IfNamed(c.idleAnimSprite, 0) + IfNamed(c.walkAnimSprite, 0) + IfNamed(c.runAnimSprite, 0);
    if c.separateTalkingLayer
    then base + IfNamed(c.idleAnimSprite, c.headLayer) + IfNamed(c.talkAnimSprite, c.headLayer) + IfNamed(HideHeadClip, c.headLayer)
    else base + IfNamed(c.talkAnimSprite, 0)
  }

  predicate StartsWith(s: string, prefix: string)
  {
    |prefix| <= |s| && s[..|prefix|] == prefix
  }

  /** A direction drawn by flipping its mirror image needs no skeleton data of its own. */
  predicate Mirrored(flipping: FrameFlipping, suffix: string)
  {
    (flipping == LeftMirrorsRight && StartsWith(suffix, "L"))
    || (flipping == RightMirrorsLeft && StartsWith(suffix, "R"))
  }

  function DirectionBlock(c: Char, suffix: string): seq<Line>
    reads c
  {
    if Mirrored(c.frameFlipping, suffix) then [] else [Header(suffix)] + ExpectedBlock(c)
  }

  function DirectionLines(c: Char, suffixes: seq<string>): seq<Line>
    reads c
    decreases |suffixes|
  {
    if |suffixes| == 0 then []
    else DirectionLines(c, suffixes[..|suffixes| - 1]) + DirectionBlock(c, suffixes[|suffixes| - 1])
  }

  function ExpectedListing(c: Char): seq<Line>
    reads c
  {
    if !c.hasDirections then [Blank, Blank] + ExpectedBlock(c)
    else [Blank] + DirectionLines(c, c.directionSuffixes)
  }

  lemma UndirectedListing(c: Char)
    requires !c.hasDirections
    ensures Render(ExpectedListing(c)) == "\n\n" + Render(ExpectedBlock(c))
  {
    TwoBlanks(ExpectedBlock(c));
  }

  lemma TwoBlanks(lines: seq<Line>)
    ensures Render([Blank, Blank] + lines) == "\n\n" + Render(lines)
  {
    var one, two := [Blank], [Blank, Blank];
    assert one[..0] == [];
    assert Render(one) == "\n";
    assert two[..1] == one;
    assert Render(two) == "\n" + "\n";
    assert "\n" + "\n" == "\n\n";
    RenderAppend(two, lines);
  }

  lemma DirectedListingStart(c: Char, ds: seq<string>)
    ensures Render([Blank] + DirectionLines(c, ds[..0])) == "\n"
  {
    assert [Blank] + DirectionLines(c, ds[..0]) == [Blank];
    assert [Blank][..0] == [];
  }

  /** One step of the listing loop: the next direction adds its block, which is empty for a mirrored direction. */
  lemma DirectionStep(c: Char, ds: seq<string>, i: int)
    requires 0 <= i < |ds|
    ensures Mirrored(c.frameFlipping, ds[i]) ==>
              Render([Blank] + DirectionLines(c, ds[..i + 1])) == Render([Blank] + DirectionLines(c, ds[..i]))
    ensures !Mirrored(c.frameFlipping, ds[i]) ==>
              Render([Blank] + DirectionLines(c, ds[..i + 1]))
                == Render([Blank] + DirectionLines(c, ds[..i])) + "\nFor Skeleton data (" + ds[i] + "):\n" + Render(ExpectedBlock(c))
  {
    assert ds[..i + 1][..i] == ds[..i];
    var front := [Blank] + DirectionLines(c, ds[..i]);
    var block := DirectionBlock(c, ds[i]);
    assert [Blank] + DirectionLines(c, ds[..i + 1]) == front + block;
    RenderAppend(front, block);
    if !Mirrored(c.frameFlipping, ds[i]) {
      RenderAppend([Header(ds[i])], ExpectedBlock(c));
      assert Render([Header(ds[i])]) == LineText(Header(ds[i]));
      Concat4(Render(front), "\nFor Skeleton data (", ds[i], "):\n", Render(ExpectedBlock(c)));
    }
  }

  lemma Concat4(r: string, a: string, b: string, c: string, d: string)
    ensures r + (a + b + c + d) == r + a + b + c + d
  {
  }

  predicate NamesNonEmpty(lines: seq<Line>)
  {
    forall i :: 0 <= i < |lines| && lines[i].Expected? ==> lines[i].clip != ""
  }

  lemma NamesNonEmptyAppend(a: seq<Line>, b: seq<Line>)
    requires NamesNonEmpty(a) && NamesNonEmpty(b)
    ensures NamesNonEmpty(a + b)
  {
    assert forall i :: |a| <= i < |a + b| ==> (a + b)[i] == b[i - |a|];
  }

  lemma BlockNamesNonEmpty(c: Char)
    ensures NamesNonEmpty(ExpectedBlock(c))
  {
    var h := c.headLayer;
    var a := IfNamed(c.idleAnimSprite, 0);
    NamesNonEmptyAppend(a, IfNamed(c.walkAnimSprite, 0));
    var b := a + IfNamed(c.walkAnimSprite, 0);
    NamesNonEmptyAppend(b, IfNamed(c.runAnimSprite, 0));
    var base := b + IfNamed(c.runAnimSprite, 0);
    NamesNonEmptyAppend(base, IfNamed(c.talkAnimSprite, 0));
    NamesNonEmptyAppend(base, IfNamed(c.idleAnimSprite, h));
    NamesNonEmptyAppend(base + IfNamed(c.idleAnimSprite, h), IfNamed(c.talkAnimSprite, h));
    NamesNonEmptyAppend(base + IfNamed(c.idleAnimSprite, h) + IfNamed(c.talkAnimSprite, h), IfNamed(HideHeadClip, h));
  }

  lemma {:induction false} DirectionLinesNamesNonEmpty(c: Char, suffixes: seq<string>)
    ensures NamesNonEmpty(DirectionLines(c, suffixes))
    decreases |suffixes|
  {
    if |suffixes| > 0 {
      var s := suffixes[|suffixes| - 1];
      DirectionLinesNamesNonEmpty(c, suffixes[..|suffixes| - 1]);
      BlockNamesNonEmpty(c);
      NamesNonEmptyAppend([Header(s)], ExpectedBlock(c));
      NamesNonEmptyAppend(DirectionLines(c, suffixes[..|suffixes| - 1]), DirectionBlock(c, s));
    }
  }

  /** The listing never names an empty clip. */
  lemma ListingNamesNonEmpty(c: Char)
    ensures NamesNonEmpty(ExpectedListing(c))
  {
    BlockNamesNonEmpty(c);
    DirectionLinesNamesNonEmpty(c, c.directionSuffixes);
    NamesNonEmptyAppend([Blank, Blank], ExpectedBlock(c));
    NamesNonEmptyAppend([Blank], DirectionLines(c, c.directionSuffixes));
  }

  predicate OnlyClips(lines: seq<Line>)
  {
    forall i :: 0 <= i < |lines| ==> lines[i].Expected?
  }

  lemma OnlyClipsAppend(a: seq<Line>, b: seq<Line>)
    requires OnlyClips(a) && OnlyClips(b)
    ensures OnlyClips(a + b)
  {
    assert forall i :: |a| <= i < |a + b| ==> (a + b)[i] == b[i - |a|];
  }

  /** The block of one skeleton lists clips only, never a section header. */
  lemma NoHeaderInBlock(c: Char, s: string)
    ensures Header(s) !in ExpectedBlock(c)
  {
    var h := c.headLayer;
    var a := IfNamed(c.idleAnimSprite, 0);
    OnlyClipsAppend(a, IfNamed(c.walkAnimSprite, 0));
    var b := a + IfNamed(c.walkAnimSprite, 0);
    OnlyClipsAppend(b, IfNamed(c.runAnimSprite, 0));
    var base := b + IfNamed(c.runAnimSprite, 0);
    OnlyClipsAppend(base, IfNamed(c.talkAnimSprite, 0));
    OnlyClipsAppend(base, IfNamed(c.idleAnimSprite, h));
    OnlyClipsAppend(base + IfNamed(c.idleAnimSprite, h), IfNamed(c.talkAnimSprite, h));
    OnlyClipsAppend(base + IfNamed(c.idleAnimSprite, h) + IfNamed(c.talkAnimSprite, h), IfNamed(HideHeadClip, h));
  }

  lemma {:induction false} DirectionLinesHeaders(c: Char, suffixes: seq<string>, s: string)
    ensures Header(s) in DirectionLines(c, suffixes) <==> s in suffixes && !Mirrored(c.frameFlipping, s)
    decreases |suffixes|
  {
    if |suffixes| > 0 {
      var init, last := suffixes[..|suffixes| - 1], suffixes[|suffixes| - 1];
      assert suffixes == init + [last];
      DirectionLinesHeaders(c, init, s);
      NoHeaderInBlock(c, s);
    }
  }

  /** A direction gets a section of the listing exactly when it is one of the character's directions and is not mirrored. */
  lemma ListingHeaders(c: Char, s: string)
    ensures (Header(s) in ExpectedListing(c))
              <==> (c.hasDirections && s in c.directionSuffixes && !Mirrored(c.frameFlipping, s))
  {
    DirectionLinesHeaders(c, c.directionSuffixes, s);
    NoHeaderInBlock(c, s);
  }

  // ---------------------------------------------------------------------------
  // The "Character: Animate" action

  class ActionCharAnim {
    var animMethod: AnimMethodChar
    var clip2D: string
    var includeDirection: bool
    var isRunning: bool
    var layerInt: int
    var doLoop: bool
    var willWait: bool
    var idleAfter: bool
    var hideHead: bool
    var standard: AnimStandard
    var changeSpeed: bool
    var newSpeed: real
    var changeSound: bool
    var newSound: Option<AudioClip>
    var defaultPauseTime: real
  }

  /** A first run plays a custom clip: PlayCustom with a non-empty clip. */
  predicate PlaysCustom(a: ActionCharAnim)
    reads a
  {
    a.animMethod == PlayCustom && a.clip2D != ""
  }

  /** A first run that plays a custom clip once and waits for it to complete. */
  predicate WaitsForClip(a: ActionCharAnim)
    reads a
  {
    PlaysCustom(a) && a.willWait && !a.doLoop
  }

  /** The clip name with the character's direction suffix appended when the action asks for it. */
  function ClipWithDirection(clip2D: string, includeDirection: bool, spriteDirection: string): (r: string)
    ensures clip2D != "" ==> r != ""
  {
    if includeDirection then clip2D + spriteDirection else clip2D
  }

  /** The change a SetStandard action describes. */
  datatype StandardChange = StandardChange(standard: AnimStandard, clip2D: string,
                                           changeSpeed: bool, newSpeed: real,
                                           changeSound: bool, newSound: Option<AudioClip>)

  function ChangeOf(a: ActionCharAnim): StandardChange
    reads a
  {
    StandardChange(a.standard, a.clip2D, a.changeSpeed, a.newSpeed, a.changeSound, a.newSound)
  }

  /**
   * SetStandard: a non-empty clip replaces exactly the named standard clip;
   * speed and sound change only for Walk and Run.
   */
  function ApplySetStandard(s: Standards, ch: StandardChange): (r: Standards)
    ensures forall k :: ClipOf(r.clips, k) == (if ch.clip2D != "" && k == ch.standard then ch.clip2D else ClipOf(s.clips, k))
    ensures r.walkSpeedScale == (if ch.changeSpeed && ch.standard == AnimStandard.Walk then ch.newSpeed else s.walkSpeedScale)
    ensures r.runSpeedScale == (if ch.changeSpeed && ch.standard == AnimStandard.Run then ch.newSpeed else s.runSpeedScale)
    ensures r.walkSound == (if ch.changeSound && ch.standard == AnimStandard.Walk then ch.newSound else s.walkSound)
    ensures r.runSound == (if ch.changeSound && ch.standard == AnimStandard.Run then ch.newSound else s.runSound)
  {
    var clips :=
      if ch.clip2D == "" then s.clips
      else match ch.standard
        case Idle => s.clips.(idle := ch.clip2D)
        case Walk => s.clips.(walk := ch.clip2D)
        case Talk => s.clips.(talk := ch.clip2D)
        case Run => s.clips.(run := ch.clip2D);
    var walkSpeed := if ch.changeSpeed && ch.standard == AnimStandard.Walk then ch.newSpeed else s.walkSpeedScale;
    var runSpeed := if ch.changeSpeed && ch.standard == AnimStandard.Run then ch.newSpeed else s.runSpeedScale;
    var walkSound := if ch.changeSound && ch.standard == AnimStandard.Walk then ch.newSound else s.walkSound;
    var runSound := if ch.changeSound && ch.standard == AnimStandard.Run then ch.newSound else s.runSound;
    Standards(clips, walkSpeed, runSpeed, walkSound, runSound)
  }

  /** The mapper's animation state after a first run plays a custom clip (and, if asked, hides the head). */
  function CustomPlayOn(v: StateView, clip: string, layerInt: int, doLoop: bool, hideHead: bool, headLayer: int): (r: StateView)
    ensures Plays(r, layerInt, clip) || (hideHead && layerInt == headLayer)
    ensures hideHead ==> Plays(r, headLayer, HideHeadClip)
  {
    var v1 := PlayClipOn(v, clip, layerInt, doLoop);
    if hideHead then PlayClipOn(v1, HideHeadClip, headLayer, true) else v1
  }

  /** The dedup of SetAnimation: no call for an empty clip or for a track that already plays that clip with that loop flag. */
  function SetAnimationOn(v: StateView, clip: string, doLoop: bool, trackIndex: int): (r: StateView)
    ensures r.calls == v.calls <==> clip == "" || (trackIndex in v.tracks && v.tracks[trackIndex] == TrackEntry(clip, doLoop))
    ensures r.calls == v.calls ==> r == v
    ensures r.calls != v.calls ==> r == Issue(v, trackIndex, clip, doLoop)
    ensures clip != "" ==> trackIndex in r.tracks && r.tracks[trackIndex] == TrackEntry(clip, doLoop)
  {
    if clip == "" then v
    else if trackIndex in v.tracks && v.tracks[trackIndex].name == clip && v.tracks[trackIndex].loop == doLoop then v
    else Issue(v, trackIndex, clip, doLoop)
  }

  /** Once the listener waits for a custom clip, a later run keeps returning the pause time exactly until that clip completes. */
  lemma CustomClipWaitsForCompletion(clip2D: string, includeDirection: bool, spriteDirection: string, names: seq<string>)
    requires clip2D != ""
    ensures var clip := ClipWithDirection(clip2D, includeDirection, spriteDirection);
            Waiting(Replay(Some(clip), names)) <==> clip !in names
  {
    WaitsUntilCompleted(ClipWithDirection(clip2D, includeDirection, spriteDirection), names);
  }

  // ---------------------------------------------------------------------------
  // The engine

  class AnimEngineSpine {
    var character: Char
    var turningStyle: TurningStyle
    var isSpriteBased: bool
    var updateHeadAlways: bool
    /** The character's DirectionMapper component, if it has one. */
    var directionMapper: DirectionMapper?
    /** The CompletionListener on the DirectionMapper's GameObject, if one was added. */
    var completionListener: CompletionListener?

    constructor (character: Char, directionMapper: DirectionMapper?, completionListener: CompletionListener?)
      ensures this.character == character && this.directionMapper == directionMapper
      ensures this.completionListener == completionListener
    {
      this.character := character;
      this.directionMapper := directionMapper;
      this.completionListener := completionListener;
    }

    method Declare(c: Char)
      modifies this`character, this`turningStyle, this`isSpriteBased, this`updateHeadAlways
      ensures character == c && turningStyle == Linear && isSpriteBased && updateHeadAlways
    {
      character := c;
      turningStyle := Linear;
      isSpriteBased := true;
      updateHeadAlways := true;
    }

    /** The animation state the mapper plays on, or null when there is none. */
    function MapperState(): AnimationState?
      reads this`directionMapper, directionMapper, if directionMapper != null then directionMapper.skeletonAnimation else null
    {
      if directionMapper != null then directionMapper.Target() else null
    }

    method PlayCharAnim(clip: string, trackIndex: int, doLoop: bool)
      modifies MapperState()
      ensures MapperState() == old(MapperState())
      ensures MapperState() != null ==> MapperState().View() == PlayClipOn(old(MapperState().View()), clip, trackIndex, doLoop)
    {
      if directionMapper != null {
        directionMapper.PlayClip(clip, trackIndex, doLoop);
      }
    }

    /**
     * The first run of a "Character: Animate" action applies it and, for a
     * custom clip that plays once and waits, makes the CompletionListener
     * wait for that clip; later runs return the pause time until the listener
     * stops waiting, then end the action (going idle if asked).
     */
    method ActionCharAnimRun(action: ActionCharAnim) returns (pause: real)
      requires !action.isRunning && WaitsForClip(action) ==> directionMapper != null
      requires action.isRunning ==> directionMapper != null && completionListener != null
      modifies this`completionListener, action`isRunning, MapperState(), completionListener
      modifies character`charState, character`idleAnimSprite, character`walkAnimSprite, character`runAnimSprite, character`talkAnimSprite
      modifies character`walkSpeedScale, character`runSpeedScale, character`walkSound, character`runSound
      ensures MapperState() == old(MapperState())
      // The first run.
      ensures !old(action.isRunning) ==> action.isRunning
      ensures !old(action.isRunning) ==> pause == (if WaitsForClip(action) then action.defaultPauseTime else 0.0)
      ensures !old(action.isRunning) ==>
                character.charState
                  == (if PlaysCustom(action) then CharState.Custom
                      else if action.animMethod == ResetToIdle then CharState.Idle
                      else old(character.charState))
      ensures !old(action.isRunning) ==>
                character.Settings()
                  == (if action.animMethod == SetStandard then ApplySetStandard(old(character.Settings()), ChangeOf(action))
                      else old(character.Settings()))
      ensures !old(action.isRunning) && MapperState() != null ==>
                MapperState().View()
                  == (if PlaysCustom(action)
                      then CustomPlayOn(old(MapperState().View()),
                                        ClipWithDirection(action.clip2D, action.includeDirection, character.spriteDirection),
                                        action.layerInt, action.doLoop,
                                        action.hideHead && character.separateTalkingLayer, character.headLayer)
                      else old(MapperState().View()))
      ensures !old(action.isRunning) && WaitsForClip(action) ==>
                completionListener != null && completionListener.IsWaiting()
                && completionListener.waitingAnimation
                     == Some(ClipWithDirection(action.clip2D, action.includeDirection, character.spriteDirection))
      ensures old(completionListener) != null ==> completionListener == old(completionListener)
      ensures old(completionListener) == null && completionListener != null ==> fresh(completionListener)
      ensures !old(action.isRunning) && WaitsForClip(action) && old(completionListener) != null ==>
                completionListener.View()
                  == WaitingFor(old(completionListener.View()), old(completionListener.Source()),
                                ClipWithDirection(action.clip2D, action.includeDirection, character.spriteDirection))
      ensures !old(action.isRunning) && WaitsForClip(action) && old(completionListener) == null ==>
                completionListener.View()
                  == WaitingFor(Enabled(directionMapper.skeletonAnimation, MapperState()), MapperState(),
                                ClipWithDirection(action.clip2D, action.includeDirection, character.spriteDirection))
      ensures old(action.isRunning) || !WaitsForClip(action) ==>
                completionListener == old(completionListener) && (completionListener != null ==> unchanged(completionListener))
      // A later run.
      ensures old(action.isRunning) ==> action.isRunning == old(completionListener.IsWaiting())
      ensures old(action.isRunning) ==> pause == (if old(completionListener.IsWaiting()) then action.defaultPauseTime else 0.0)
      ensures old(action.isRunning) ==>
                character.charState
                  == (if !old(completionListener.IsWaiting()) && action.idleAfter then CharState.Idle else old(character.charState))
      ensures old(action.isRunning) ==> character.Settings() == old(character.Settings())
      ensures old(action.isRunning) && MapperState() != null ==> MapperState().View() == old(MapperState().View())
    {
      if !action.isRunning {
        pause := StartAnim(action);
      } else {
        pause := PollAnim(action);
      }
    }

    /** The first run of ActionCharAnimRun. */
    method StartAnim(action: ActionCharAnim) returns (pause: real)
      requires !action.isRunning
      requires WaitsForClip(action) ==> directionMapper != null
      modifies this`completionListener, action`isRunning, MapperState(), completionListener
      modifies character`charState, character`idleAnimSprite, character`walkAnimSprite, character`runAnimSprite, character`talkAnimSprite
      modifies character`walkSpeedScale, character`runSpeedScale, character`walkSound, character`runSound
      ensures MapperState() == old(MapperState())
      ensures action.isRunning
      ensures pause == (if WaitsForClip(action) then action.defaultPauseTime else 0.0)
      ensures character.charState
                == (if PlaysCustom(action) then CharState.Custom
                    else if action.animMethod == ResetToIdle then CharState.Idle
                    else old(character.charState))
      ensures character.Settings()
                == (if action.animMethod == SetStandard then ApplySetStandard(old(character.Settings()), ChangeOf(action))
                    else old(character.Settings()))
      ensures MapperState() != null ==>
                MapperState().View()
                  == (if PlaysCustom(action)
                      then CustomPlayOn(old(MapperState().View()),
                                        ClipWithDirection(action.clip2D, action.includeDirection, character.spriteDirection),
                                        action.layerInt, action.doLoop,
                                        action.hideHead && character.separateTalkingLayer, character.headLayer)
                      else old(MapperState().View()))
      ensures !WaitsForClip(action) ==>
                completionListener == old(completionListener) && (completionListener != null ==> unchanged(completionListener))
      ensures WaitsForClip(action) ==>
                completionListener != null && completionListener.IsWaiting()
                && completionListener.waitingAnimation
                     == Some(ClipWithDirection(action.clip2D, action.includeDirection, character.spriteDirection))
      ensures old(completionListener) != null ==> completionListener == old(completionListener)
      ensures old(completionListener) == null && completionListener != null ==> fresh(completionListener)
      ensures WaitsForClip(action) && old(completionListener) != null ==>
                completionListener.View()
                  == WaitingFor(old(completionListener.View()), old(completionListener.Source()),
                                ClipWithDirection(action.clip2D, action.includeDirection, character.spriteDirection))
      ensures WaitsForClip(action) && old(completionListener) == null ==>
                completionListener.View()
                  == WaitingFor(Enabled(directionMapper.skeletonAnimation, MapperState()), MapperState(),
                                ClipWithDirection(action.clip2D, action.includeDirection, character.spriteDirection))
    {
      action.isRunning := true;
      assert MapperState() == old(MapperState()) && (MapperState() != null ==> MapperState().View() == old(MapperState().View()));
      assert completionListener != null ==>
               completionListener.View() == old(completionListener.View())
               && completionListener.Source() == old(completionListener.Source());

      if action.animMethod == PlayCustom && action.clip2D != "" {
        pause := CustomAnim(action);
      } else {
        ResetOrSetStandard(action);
        pause := 0.0;
      }
    }

    /** The other methods of the first run: ResetToIdle and SetStandard; a PlayCustom without a clip and StopCustom do nothing. */
    method ResetOrSetStandard(action: ActionCharAnim)
      modifies character`charState, character`idleAnimSprite, character`walkAnimSprite, character`runAnimSprite, character`talkAnimSprite
      modifies character`walkSpeedScale, character`runSpeedScale, character`walkSound, character`runSound
      ensures character.charState == (if action.animMethod == ResetToIdle then CharState.Idle else old(character.charState))
      ensures character.Settings()
                == (if action.animMethod == SetStandard then ApplySetStandard(old(character.Settings()), ChangeOf(action))
                    else old(character.Settings()))
    {
      if action.animMethod == ResetToIdle {
        character.charState := CharState.Idle;
      } else if action.animMethod == SetStandard {
        SetStandardAnim(action);
      }
    }

    /** The PlayCustom branch of the first run: play the clip, then wait for it if it plays once and the action waits. */
    method CustomAnim(action: ActionCharAnim) returns (pause: real)
      requires PlaysCustom(action)
      requires WaitsForClip(action) ==> directionMapper != null
      modifies this`completionListener, MapperState(), completionListener, character`charState
      ensures MapperState() == old(MapperState())
      ensures pause == (if WaitsForClip(action) then action.defaultPauseTime else 0.0)
      ensures character.charState == CharState.Custom
      ensures MapperState() != null ==>
                MapperState().View()
                  == CustomPlayOn(old(MapperState().View()),
                                  ClipWithDirection(action.clip2D, action.includeDirection, character.spriteDirection),
                                  action.layerInt, action.doLoop,
                                  action.hideHead && character.separateTalkingLayer, character.headLayer)
      ensures !WaitsForClip(action) ==>
                completionListener == old(completionListener) && (completionListener != null ==> unchanged(completionListener))
      ensures WaitsForClip(action) ==>
                completionListener != null && completionListener.IsWaiting()
                && completionListener.waitingAnimation
                     == Some(ClipWithDirection(action.clip2D, action.includeDirection, character.spriteDirection))
      ensures old(completionListener) != null ==> completionListener == old(completionListener)
      ensures old(completionListener) == null && completionListener != null ==> fresh(completionListener)
      ensures WaitsForClip(action) && old(completionListener) != null ==>
                completionListener.View()
                  == WaitingFor(old(completionListener.View()), old(completionListener.Source()),
                                ClipWithDirection(action.clip2D, action.includeDirection, character.spriteDirection))
      ensures WaitsForClip(action) && old(completionListener) == null ==>
                completionListener.View()
                  == WaitingFor(Enabled(directionMapper.skeletonAnimation, MapperState()), MapperState(),
                                ClipWithDirection(action.clip2D, action.includeDirection, character.spriteDirection))
    {
      var clip2DNew := ClipWithDirection(action.clip2D, action.includeDirection, character.spriteDirection);
      PlayCustomAnim(action, clip2DNew);
      assert completionListener != null ==>
               completionListener.View() == old(completionListener.View())
               && completionListener.Source() == old(completionListener.Source());

      if action.willWait && !action.doLoop {
        WaitForCompletion(clip2DNew);
        return action.defaultPauseTime;
      }
      return 0.0;
    }

    /** A later run of ActionCharAnimRun: keep pausing while the listener waits, then end the action. */
    method PollAnim(action: ActionCharAnim) returns (pause: real)
      requires action.isRunning && completionListener != null
      modifies action`isRunning, character`charState
      ensures action.isRunning == completionListener.IsWaiting()
      ensures pause == (if completionListener.IsWaiting() then action.defaultPauseTime else 0.0)
      ensures character.charState
                == (if !completionListener.IsWaiting() && action.idleAfter then CharState.Idle else old(character.charState))
    {
      if !completionListener.IsWaiting() {
        if action.idleAfter {
          character.charState := CharState.Idle;
        }
        action.isRunning := false;
        return 0.0;
      }
      return action.defaultPauseTime;
    }

    /** The start of the PlayCustom branch of ActionCharAnimRun: play the clip, and hide the head if asked. */
    method PlayCustomAnim(action: ActionCharAnim, clip: string)
      modifies character`charState, MapperState()
      ensures MapperState() == old(MapperState())
      ensures character.charState == CharState.Custom
      ensures MapperState() != null ==>
                MapperState().View()
                  == CustomPlayOn(old(MapperState().View()), clip, action.layerInt, action.doLoop,
                                  action.hideHead && character.separateTalkingLayer, character.headLayer)
    {
      character.charState := CharState.Custom;
      PlayCharAnim(clip, action.layerInt, action.doLoop);

      if action.hideHead && character.separateTalkingLayer {
        // PlayHeadAnim(hideHeadClip): the clip is never empty.
        PlayCharAnim(HideHeadClip, character.headLayer, true);
      }
    }

    /**
     * The waiting branch of ActionCharAnimRun: find the CompletionListener
     * beside the DirectionMapper, adding one if there is none, and make it
     * wait for the clip.
     */
    method WaitForCompletion(clip: string)
      requires directionMapper != null
      modifies this`completionListener, completionListener
      ensures MapperState() == old(MapperState())
      ensures MapperState() != null ==> MapperState().View() == old(MapperState().View())
      ensures completionListener != null && completionListener.waitingAnimation == Some(clip)
      ensures completionListener.IsWaiting() <==> clip != ""
      ensures old(completionListener) != null ==> completionListener == old(completionListener)
      ensures old(completionListener) != null ==>
                completionListener.View() == WaitingFor(old(completionListener.View()), old(completionListener.Source()), clip)
      ensures old(completionListener) == null ==>
                fresh(completionListener)
                && completionListener.View() == WaitingFor(Enabled(directionMapper.skeletonAnimation, MapperState()), MapperState(), clip)
    {
      if completionListener == null {
        AddListener();
        completionListener.SetWaitingAnimation(clip);
      } else {
        completionListener.SetWaitingAnimation(clip);
      }
    }

    /** AddComponent<CompletionListener>() beside the DirectionMapper, which enables the new listener. */
    method AddListener()
      requires directionMapper != null && completionListener == null
      modifies this`completionListener
      ensures completionListener != null && fresh(completionListener)
      ensures completionListener.View() == Enabled(directionMapper.skeletonAnimation, MapperState())
      ensures completionListener.Source() == MapperState()
    {
      var listener := new CompletionListener();
      listener.OnEnable(directionMapper, null, null);
      completionListener := listener;
    }

    /** The SetStandard branch of ActionCharAnimRun. */
    method SetStandardAnim(action: ActionCharAnim)
      modifies character`idleAnimSprite, character`walkAnimSprite, character`runAnimSprite, character`talkAnimSprite
      modifies character`walkSpeedScale, character`runSpeedScale, character`walkSound, character`runSound
      ensures character.Settings() == ApplySetStandard(old(character.Settings()), ChangeOf(action))
    {
      if action.clip2D != "" {
        if action.standard == AnimStandard.Idle {
          character.idleAnimSprite := action.clip2D;
        } else if action.standard == AnimStandard.Walk {
          character.walkAnimSprite := action.clip2D;
        } else if action.standard == AnimStandard.Talk {
          character.talkAnimSprite := action.clip2D;
        } else if action.standard == AnimStandard.Run {
          character.runAnimSprite := action.clip2D;
        }
      }

      if action.changeSpeed {
        if action.standard == AnimStandard.Walk {
          character.walkSpeedScale := action.newSpeed;
        } else if action.standard == AnimStandard.Run {
          character.runSpeedScale := action.newSpeed;
        }
      }

      if action.changeSound {
        if action.standard == AnimStandard.Walk {
          if action.newSound.Some? {
            character.walkSound := action.newSound;
          } else {
            character.walkSound := None;
          }
        } else if action.standard == AnimStandard.Run {
          if action.newSound.Some? {
            character.runSound := action.newSound;
          } else {
            character.runSound := None;
          }
        }
      }
    }

    /** Skipping an action applies its end state at once, without waiting. */
    method ActionCharAnimSkip(action: ActionCharAnim)
      requires action.animMethod == SetStandard && action.isRunning ==> directionMapper != null && completionListener != null
      modifies this`completionListener, action`isRunning, MapperState(), completionListener
      modifies character`charState, character`idleAnimSprite, character`walkAnimSprite, character`runAnimSprite, character`talkAnimSprite
      modifies character`walkSpeedScale, character`runSpeedScale, character`walkSound, character`runSound
      ensures MapperState() == old(MapperState())
      ensures completionListener == old(completionListener) && (completionListener != null ==> unchanged(completionListener))
      ensures action.animMethod == SetStandard && !old(action.isRunning) ==>
                action.isRunning && character.charState == old(character.charState)
                && character.Settings() == ApplySetStandard(old(character.Settings()), ChangeOf(action))
      ensures action.animMethod == SetStandard && old(action.isRunning) ==>
                action.isRunning == old(completionListener.IsWaiting())
                && character.charState
                     == (if !old(completionListener.IsWaiting()) && action.idleAfter then CharState.Idle else old(character.charState))
                && character.Settings() == old(character.Settings())
      ensures action.animMethod != SetStandard ==>
                action.isRunning == old(action.isRunning) && character.Settings() == old(character.Settings())
      ensures action.animMethod == ResetToIdle ==> character.charState == CharState.Idle
      ensures action.animMethod == StopCustom ==> character.charState == old(character.charState)
      ensures action.animMethod == PlayCustom ==>
                character.charState == (if action.willWait && action.idleAfter then CharState.Idle else CharState.Custom)
      ensures MapperState() != null ==>
                MapperState().View()
                  == (if action.animMethod == PlayCustom && !(action.willWait && action.idleAfter)
                      then PlayClipOn(old(MapperState().View()),
                                      ClipWithDirection(action.clip2D, action.includeDirection, character.spriteDirection),
                                      action.layerInt, true)
                      else old(MapperState().View()))
    {
      if action.animMethod == SetStandard {
        var _ := ActionCharAnimRun(action);
        return;
      } else if action.animMethod == ResetToIdle {
        character.charState := CharState.Idle;
        return;
      }

      var clip2DNew := ClipWithDirection(action.clip2D, action.includeDirection, character.spriteDirection);

      if action.animMethod == PlayCustom {
        if action.willWait && action.idleAfter {
          character.charState := CharState.Idle;
        } else {
          character.charState := CharState.Custom;
          PlayCharAnim(clip2DNew, action.layerInt, true);
        }
      }
    }

    method ShowExpected(c: Char) returns (result: string)
      ensures result == Render(ExpectedListing(c))
    {
      result := "\n";
      if !c.hasDirections {
        result := result + "\n";
        assert result == "\n\n";
        result := AppendExpectedBlock(c, result);
        UndirectedListing(c);
        return;
      }

      var spriteDirections := c.directionSuffixes;
      var i := 0;
      DirectedListingStart(c, spriteDirections);
      while i < |spriteDirections|
        invariant 0 <= i <= |spriteDirections|
        invariant result == Render([Blank] + DirectionLines(c, spriteDirections[..i]))
      {
        var suffix := spriteDirections[i];
        DirectionStep(c, spriteDirections, i);
        ghost var before := result;
        if c.frameFlipping == LeftMirrorsRight && StartsWith(suffix, "L") {
          assert Mirrored(c.frameFlipping, suffix);
          i := i + 1;
          continue;
        }
        if c.frameFlipping == RightMirrorsLeft && StartsWith(suffix, "R") {
          assert Mirrored(c.frameFlipping, suffix);
          i := i + 1;
          continue;
        }
        assert !Mirrored(c.frameFlipping, suffix);
        result := result + "\nFor Skeleton data (" + suffix + "):\n";
        result := AppendExpectedBlock(c, result);
        assert result == before + "\nFor Skeleton data (" + suffix + "):\n" + Render(ExpectedBlock(c));
        i := i + 1;
      }
      assert spriteDirections[..i] == spriteDirections;
    }

    /** The lines one skeleton needs, appended to `result` (written out twice in AC's code). */
    method AppendExpectedBlock(c: Char, result: string) returns (r: string)
      ensures r == result + Render(ExpectedBlock(c))
    {
      var idle, walk, run, talk := c.idleAnimSprite, c.walkAnimSprite, c.runAnimSprite, c.talkAnimSprite;
      var baseTail := "   (0)\n";
      var headTail := "   (" + IntToString(c.headLayer) + ")\n";
      ZeroText();
      r := result;
      ghost var lines: seq<Line> := [];
      AppendStep(result, lines, r, idle, 0, baseTail);
      if idle != "" { r := r + (idle + baseTail); }
      assert lines + IfNamed(idle, 0) == IfNamed(idle, 0);
      lines := IfNamed(idle, 0);
      AppendStep(result, lines, r, walk, 0, baseTail);
      if walk != "" { r := r + (walk + baseTail); }
      lines := lines + IfNamed(walk, 0);
      AppendStep(result, lines, r, run, 0, baseTail);
      if run != "" { r := r + (run + baseTail); }
      lines := lines + IfNamed(run, 0);
      if c.separateTalkingLayer {
        AppendStep(result, lines, r, idle, c.headLayer, headTail);
        if idle != "" { r := r + (idle + headTail); }
        lines := lines + IfNamed(idle, c.headLayer);
        AppendStep(result, lines, r, talk, c.headLayer, headTail);
        if talk != "" { r := r + (talk + headTail); }
        lines := lines + IfNamed(talk, c.headLayer);
        AppendStep(result, lines, r, HideHeadClip, c.headLayer, headTail);
        if HideHeadClip != "" { r := r + (HideHeadClip + headTail); }
        lines := lines + IfNamed(HideHeadClip, c.headLayer);
      } else {
        AppendStep(result, lines, r, talk, 0, baseTail);
        if talk != "" { r := r + (talk + baseTail); }
        lines := lines + IfNamed(talk, 0);
      }
      assert lines == ExpectedBlock(c);
    }

    method SetAnimation(clip: string, doLoop: bool, skeletonAnimation: SkeletonAnimation?, trackIndex: int)
      requires clip != "" && skeletonAnimation != null ==> skeletonAnimation.state != null
      modifies if skeletonAnimation != null then skeletonAnimation.state else null
      ensures skeletonAnimation != null && skeletonAnimation.state != null ==>
                skeletonAnimation.state.View() == SetAnimationOn(old(skeletonAnimation.state.View()), clip, doLoop, trackIndex)
    {
      if clip == "" || skeletonAnimation == null {
        return;
      }
      var trackEntry := skeletonAnimation.state.GetCurrent(trackIndex);
      if trackEntry.Some? {
        if trackEntry.value.name == clip && trackEntry.value.loop == doLoop {
          return;
        }
      }
      skeletonAnimation.state.SetAnimation(trackIndex, clip, doLoop);
    }

    /** The SkeletonGraphic overload of SetAnimation. */
    method SetGraphicAnimation(clip: string, doLoop: bool, skeletonGraphic: SkeletonGraphic?, trackIndex: int)
      modifies if skeletonGraphic != null then skeletonGraphic.animationState else null
      ensures skeletonGraphic != null ==>
                skeletonGraphic.animationState.View()
                  == SetAnimationOn(old(skeletonGraphic.animationState.View()), clip, doLoop, trackIndex)
    {
      if clip == "" || skeletonGraphic == null {
        return;
      }
      var trackEntry := skeletonGraphic.animationState.GetCurrent(trackIndex);
      if trackEntry.Some? {
        if trackEntry.value.name == clip && trackEntry.value.loop == doLoop {
          return;
        }
      }
      skeletonGraphic.animationState.SetAnimation(trackIndex, clip, doLoop);
    }
  }

}
