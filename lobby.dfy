/**
 * The lobby screen: skin selection with wrap-around, the ready toggle, the join guard and the
 * roster and player-count texts. The network manager's own members (`CreateGame`, `JoinGame`,
 * `SendReadyState`, `Room`) are opaque here: calls to them are recorded, the room's presence
 * and contents are parameters.
 */
module Lobby {

  import opened Wrappers
  import opened Schema
  import opened Decimal

  /** What the screen asks of the network manager and its room. */
  datatype ManagerCall = CreateGame | JoinGame(code: string) | SendReadyState(isReady: bool) | SendSkin(index: int)

  // ---------------------------------------------------------------- skin index

  /** C#'s `/` on `int`: the quotient is rounded toward zero. */
  function CsQuotient(a: int, n: int): (q: int)
    requires n > 0
    ensures a >= 0 ==> q >= 0
    ensures a < 0 ==> q <= 0
  {
    if a >= 0 then a / n else -((-a) / n)
  }

  /**
   * C#'s `%` on `int`: what is left of `a` after the truncating quotient, so the remainder
   * takes the dividend's sign.
   */
  function CsRemainder(a: int, n: int): (r: int)
    requires n > 0
    ensures r == a - CsQuotient(a, n) * n
    ensures a >= 0 ==> 0 <= r < n
    ensures a < 0 ==> -n < r <= 0
  {
    if a >= 0 then a % n else -((-a) % n)
  }

  /** A negative stored index stays negative after "next": `(-4) % 3` is -1 in C#. */
  lemma NextSkinFromNegative()
    ensures CsRemainder(-4, 3) == -1 && NextSkin(-5, 3) == -1
  {
    assert CsQuotient(-4, 3) == -1;
  }

  /** The index after "next" with `n` skins. */
  function NextSkin(i: int, n: nat): int
    requires n > 0
  {
    CsRemainder(i + 1, n)
  }

  /** The index after "prev" with `n` skins. */
  function PrevSkin(i: int, n: nat): int
    requires n > 0
  {
    if i - 1 < 0 then n - 1 else i - 1
  }

  /** `UpdateSkinUI`'s reset: with a non-empty registry an index past the end becomes 0. */
  function ClampedSkin(registry: Option<SkinRegistry>, i: int): int {
    if registry.None? || |registry.value| == 0 then i
    else if i >= |registry.value| then 0
    else i
  }

  /**
   * `UpdateSkinUI` throws reading the preview texture: a preview image is assigned, the
   * registry has skins, and the index it is left with is negative.
   */
  predicate PreviewThrows(registry: Option<SkinRegistry>, hasPreview: bool, i: int) {
    hasPreview && registry.Some? && |registry.value| > 0 && i < 0
  }

  /** A negative stored index, after "next" with 3 skins, is still negative and breaks the preview. */
  lemma NextFromNegativeThrows(t: Texture)
    ensures PreviewThrows(Some([t, t, t]), true, ClampedSkin(Some([t, t, t]), NextSkin(-5, 3)))
  {
    NextSkinFromNegative();
  }

  /** "Prev" never leaves a negative index behind, so it never breaks the preview. */
  lemma PrevNeverThrows(registry: Option<SkinRegistry>, hasPreview: bool, i: int)
    requires registry.Some? && |registry.value| > 0
    ensures !PreviewThrows(registry, hasPreview, ClampedSkin(registry, PrevSkin(i, |registry.value|)))
  {
  }

  /** "Next" from a non-negative index stays in range and wraps from the last skin to the first. */
  lemma NextSkinInRange(i: int, n: nat)
    requires n > 0 && i >= 0
    ensures 0 <= NextSkin(i, n) < n
    ensures i < n ==> NextSkin(i, n) == if i == n - 1 then 0 else i + 1
  {
  }

  /** "Prev" from an index up to `n` stays in range and wraps from the first skin to the last. */
  lemma PrevSkinInRange(i: int, n: nat)
    requires n > 0 && i <= n
    ensures 0 <= PrevSkin(i, n) < n
    ensures i == 0 ==> PrevSkin(i, n) == n - 1
  {
  }

  /** "Next" and "prev" undo each other on every valid index. */
  lemma NextPrevInverse(i: int, n: nat)
    requires n > 0 && 0 <= i < n
    ensures NextSkin(PrevSkin(i, n), n) == i
    ensures PrevSkin(NextSkin(i, n), n) == i
  {
    NextSkinInRange(i, n);
    NextSkinInRange(PrevSkin(i, n), n);
  }

  /** After the reset, an index is below the registry's length; a non-negative one stays so. */
  lemma ClampedSkinBelowCount(registry: Option<SkinRegistry>, i: int)
    requires registry.Some? && |registry.value| > 0
    ensures ClampedSkin(registry, i) < |registry.value|
    ensures i >= 0 ==> 0 <= ClampedSkin(registry, i)
    ensures 0 <= i < |registry.value| ==> ClampedSkin(registry, i) == i
  {
  }

  // ---------------------------------------------------------------- ready button

  function ReadyLabel(isReady: bool): (s: string)
    ensures s == "READY!" <==> isReady
  {
    if isReady then "READY!" else "READY"
  }

  // ---------------------------------------------------------------- join code

  /** .NET's `char.IsWhiteSpace`: the Unicode space, line and paragraph separators and U+0009..U+000D, U+0085. */
  predicate IsWhiteSpace(c: char) {
    var n := c as int;
    (0x09 <= n <= 0x0D) || n == 0x20 || n == 0x85 || n == 0xA0 || n == 0x1680 ||
    (0x2000 <= n <= 0x200A) || n == 0x2028 || n == 0x2029 || n == 0x202F || n == 0x205F || n == 0x3000
  }

  predicate AllWhiteSpace(s: string) {
    forall i :: 0 <= i < |s| ==> IsWhiteSpace(s[i])
  }

  function TrimStart(s: string): (r: string)
    ensures |r| <= |s| && r == s[|s| - |r|..]
    ensures AllWhiteSpace(s[..|s| - |r|])
    ensures r == [] || !IsWhiteSpace(r[0])
  {
    if s != [] && IsWhiteSpace(s[0]) then
      var r := TrimStart(s[1..]);
      assert s[..|s| - |r|] == [s[0]] + s[1..][..|s| - 1 - |r|];
      r
    else s
  }

  function TrimEnd(s: string): (r: string)
    ensures |r| <= |s| && r == s[..|r|]
    ensures AllWhiteSpace(s[|r|..])
    ensures r == [] || !IsWhiteSpace(r[|r| - 1])
  {
    if s != [] && IsWhiteSpace(s[|s| - 1]) then
      var r := TrimEnd(s[..|s| - 1]);
      assert s[|r|..] == s[..|s| - 1][|r|..] + [s[|s| - 1]];
      r
    else s
  }

  /**
   * `r` is what is left of `s` after cutting white space from both ends, starting at `a`: a
   * slice with only white space before and after it, and neither end white space.
   */
  predicate IsTrimOf(s: string, a: nat, r: string) {
    && a + |r| <= |s| && r == s[a..a + |r|]
    && AllWhiteSpace(s[..a]) && AllWhiteSpace(s[a + |r|..])
    && (r == [] || (!IsWhiteSpace(r[0]) && !IsWhiteSpace(r[|r| - 1])))
  }

  /** `string.Trim()`: leading and trailing white space removed. */
  function Trim(s: string): (r: string)
    ensures IsTrimOf(s, |s| - |TrimStart(s)|, r)
  {
    var t := TrimStart(s);
    var r := TrimEnd(t);
    TrimOfTrimmedStart(s, t, r);
    r
  }

  /** Trimming the end of a trimmed start of `s` trims `s`. */
  lemma TrimOfTrimmedStart(s: string, t: string, r: string)
    requires |t| <= |s| && t == s[|s| - |t|..] && AllWhiteSpace(s[..|s| - |t|])
    requires t == [] || !IsWhiteSpace(t[0])
    requires |r| <= |t| && r == t[..|r|] && AllWhiteSpace(t[|r|..])
    requires r == [] || !IsWhiteSpace(r[|r| - 1])
    ensures IsTrimOf(s, |s| - |t|, r)
  {
    var a := |s| - |t|;
    assert r == s[a..a + |r|];
    assert t[|r|..] == s[a + |r|..];
    assert r != [] ==> r[0] == t[0];
  }

  /** The trimmed code is empty exactly when the input is nothing but white space. */
  lemma TrimEmptyIff(s: string)
    ensures Trim(s) == [] <==> AllWhiteSpace(s)
  {
    var t := TrimStart(s);
    assert t[0..] == t && s[..|s|] == s;
    assert |t| > 0 ==> t[0] == s[|s| - |t|];
  }

  // ---------------------------------------------------------------- roster

  /** One row of the room's player map, in the map's key order. */
  datatype RosterEntry = RosterEntry(key: string, isReady: bool)

  /** The room as the lobby sees it: our session id and the players in key order. */
  datatype RoomView = RoomView(sessionId: string, players: seq<RosterEntry>)

  /** `AppendLine`'s line terminator. */
  const NewLine: string := "\n"

  function StatusText(isReady: bool): string {
    if isReady then "[READY]" else "[WAITING]"
  }

  /** The line for the `n`-th player: number, name, the own-player mark and status. */
  function RosterLine(n: nat, e: RosterEntry, ownId: string): string {
    ToDecimal(n) + ". Player" + (if e.key == ownId then " (You)" else "") + " " + StatusText(e.isReady)
  }

  /** What a roster line tells the reader. */
  datatype LineInfo = LineInfo(number: nat, isYou: bool, isReady: bool)

  /** The number of leading digits of `s`. */
  function DigitRun(s: string): (k: nat)
    ensures k <= |s| && AllDigits(s[..k]) && (k < |s| ==> !IsDigit(s[k]))
  {
    if s == [] || !IsDigit(s[0]) then 0
    else
      var k := 1 + DigitRun(s[1..]);
      assert s[..k] == [s[0]] + s[1..][..k - 1];
      k
  }

  /** Reads the status word back. */
  function ParseStatus(st: string): Option<bool> {
    if st == "[READY]" then Some(true) else if st == "[WAITING]" then Some(false) else None
  }

  /** Splits off the own-player mark and the blank before the status. */
  function ParseMark(tail: string): Option<(bool, string)> {
    if |tail| >= 7 && tail[..7] == " (You) " then Some((true, tail[7..]))
    else if |tail| >= 1 && tail[0] == ' ' then Some((false, tail[1..]))
    else None
  }

  /** Reads a roster line back. */
  function ParseRosterLine(line: string): Option<LineInfo> {
    var d := DigitRun(line);
    var number := ParseDecimal(line[..d]);
    var rest := line[d..];
    if number.None? || |rest| < 8 || rest[..8] != ". Player" then None
    else
      match ParseMark(rest[8..])
      case None => None
      case Some((you, st)) =>
        match ParseStatus(st)
        case None => None
        case Some(ready) => Some(LineInfo(number.value, you, ready))
  }

  lemma {:induction false} DigitRunOfNumeral(p: string, t: string)
    requires AllDigits(p) && (t == [] || !IsDigit(t[0]))
    ensures DigitRun(p + t) == |p|
  {
    if p != [] {
      assert (p + t)[1..] == p[1..] + t;
      DigitRunOfNumeral(p[1..], t);
    }
  }

  lemma StatusReadsBack(isReady: bool)
    ensures ParseStatus(StatusText(isReady)) == Some(isReady)
  {
  }

  lemma MarkReadsBack(isYou: bool, st: string)
    requires st == StatusText(false) || st == StatusText(true)
    ensures ParseMark((if isYou then " (You)" else "") + " " + st) == Some((isYou, st))
  {
    var tail := (if isYou then " (You)" else "") + " " + st;
    if isYou {
      assert tail[..7] == " (You) " && tail[7..] == st;
    } else {
      assert tail == [' '] + st;
      assert tail[1] == st[0] == '[';
      assert |tail| >= 7 ==> tail[..7] != " (You) " by {
        if |tail| >= 7 { assert tail[..7][1] != " (You) "[1]; }
      }
      assert tail[1..] == st;
    }
  }

  /**
   * Each roster line reads back as its number, whether its key is our own session id, and its
   * ready flag; so " (You)" marks exactly the own line and "[READY]" exactly the ready ones.
   */
  lemma RosterLineReadsBack(n: nat, e: RosterEntry, ownId: string)
    ensures ParseRosterLine(RosterLine(n, e, ownId)) == Some(LineInfo(n, e.key == ownId, e.isReady))
  {
    var num := ToDecimal(n);
    var st := StatusText(e.isReady);
    var tail := (if e.key == ownId then " (You)" else "") + " " + st;
    var t := ". Player" + tail;
    var line := RosterLine(n, e, ownId);
    assert line == num + t;
    DigitRunOfNumeral(num, t);
    assert line[..|num|] == num && line[|num|..] == t;
    ParseIsInverse(n, "");
    assert t[..8] == ". Player" && t[8..] == tail;
    MarkReadsBack(e.key == ownId, st);
    StatusReadsBack(e.isReady);
  }

  function RosterLines(entries: seq<RosterEntry>, ownId: string): (lines: seq<string>)
    ensures |lines| == |entries|
  {
    seq(|entries|, i requires 0 <= i < |entries| => RosterLine(i + 1, entries[i], ownId))
  }

  /** Lines, each followed by the terminator. */
  function Unlines(lines: seq<string>): string {
    if lines == [] then ""
    else Unlines(lines[..|lines| - 1]) + lines[|lines| - 1] + NewLine
  }

  /** The roster text for the players in key order, numbered from 1. */
  function RosterText(entries: seq<RosterEntry>, ownId: string): string {
    Unlines(RosterLines(entries, ownId))
  }

  lemma RosterLinesSnoc(entries: seq<RosterEntry>, k: nat, ownId: string)
    requires k < |entries|
    ensures RosterLines(entries[..k + 1], ownId) ==
              RosterLines(entries[..k], ownId) + [RosterLine(k + 1, entries[k], ownId)]
  {
  }

  lemma UnlinesSnoc(lines: seq<string>, l: string)
    ensures Unlines(lines + [l]) == Unlines(lines) + l + NewLine
  {
    assert (lines + [l])[..|lines|] == lines;
  }

  /** The `foreach` over the keys with the counter `i` and the `StringBuilder`. */
  method BuildRoster(entries: seq<RosterEntry>, ownId: string) returns (text: string)
    ensures text == RosterText(entries, ownId)
  {
    text := "";
    var i := 1;
    while i <= |entries|
      invariant 1 <= i <= |entries| + 1
      invariant text == Unlines(RosterLines(entries[..i - 1], ownId))
    {
      var e := entries[i - 1];
      var status := if e.isReady then "[READY]" else "[WAITING]";
      var prefix := if e.key == ownId then " (You)" else "";
      RosterLinesSnoc(entries, i - 1, ownId);
      UnlinesSnoc(RosterLines(entries[..i - 1], ownId), RosterLine(i, e, ownId));
      text := text + (ToDecimal(i) + ". Player" + prefix + " " + status) + NewLine;
      i := i + 1;
    }
    assert entries[..i - 1] == entries;
  }

  /** The player-count text "Players: {k}/4". */
  function CountText(k: nat): (s: string)
    ensures |s| >= 11 && s[..9] == "Players: " && s[|s| - 2..] == "/4"
    ensures ParseDecimal(s[9..|s| - 2]) == Some(k)
  {
    var s := "Players: " + ToDecimal(k) + "/4";
    assert s[9..|s| - 2] == ToDecimal(k);
    ParseIsInverse(k, "");
    s
  }

  // ---------------------------------------------------------------- the component

  class LobbyUI {
    const registry: Option<SkinRegistry>
    /** `skinPreviewImage != null`. */
    const hasPreview: bool
    var isReady: bool
    var currentSkinIndex: int
    var readyText: string
    /** The "SelectedSkin" preference. */
    var savedSkin: Option<int>
    var calls: seq<ManagerCall>
    var countText: string
    var rosterText: string

    /** The component as the scene loads it; `stored` is the preference store's content. */
    constructor (skins: Option<SkinRegistry>, preview: bool, stored: Option<int>, buttonText: string)
      ensures registry == skins && hasPreview == preview && savedSkin == stored && readyText == buttonText
      ensures !isReady && currentSkinIndex == 0 && calls == []
    {
      registry := skins;
      hasPreview := preview;
      isReady := false;
      currentSkinIndex := 0;
      readyText := buttonText;
      savedSkin := stored;
      calls := [];
      countText := "";
      rosterText := "";
    }

    /** `Start`: load the stored skin index, if any, then reset it if out of range. */
    method Start()
      modifies this`currentSkinIndex
      ensures currentSkinIndex == ClampedSkin(registry, if savedSkin.Some? then savedSkin.value else old(currentSkinIndex))
    {
      if savedSkin.Some? {
        currentSkinIndex := savedSkin.value;
      }
      var shown := UpdateSkinUI();
    }

    /**
     * Reset an index past the end, then show the preview; `shown` is false when reading the
     * preview texture throws, which ends the caller too.
     */
    method UpdateSkinUI() returns (shown: bool)
      modifies this`currentSkinIndex
      ensures currentSkinIndex == ClampedSkin(registry, old(currentSkinIndex))
      ensures shown <==> !PreviewThrows(registry, hasPreview, currentSkinIndex)
    {
      if registry.None? || |registry.value| == 0 {
        return true;
      }
      if currentSkinIndex >= |registry.value| {
        currentSkinIndex := 0;
      }
      shown := !(hasPreview && currentSkinIndex < 0);
    }

    /**
     * Store the index as it is, then reset it, then send the reset index when in a room
     * (`inRoom`: the manager and its room are both set) and the preview did not throw.
     */
    method SaveAndSyncSkin(inRoom: bool)
      modifies this`savedSkin, this`currentSkinIndex, this`calls
      ensures savedSkin == Some(old(currentSkinIndex))
      ensures currentSkinIndex == ClampedSkin(registry, old(currentSkinIndex))
      ensures calls == old(calls) +
        if inRoom && !PreviewThrows(registry, hasPreview, currentSkinIndex) then [SendSkin(currentSkinIndex)] else []
    {
      savedSkin := Some(currentSkinIndex);
      var shown := UpdateSkinUI();
      if !shown {
        return;
      }
      if inRoom {
        calls := calls + [SendSkin(currentSkinIndex)];
      }
    }

    method OnNextSkinClicked(inRoom: bool)
      modifies this`savedSkin, this`currentSkinIndex, this`calls
      ensures registry.None? || |registry.value| == 0 ==>
        savedSkin == old(savedSkin) && currentSkinIndex == old(currentSkinIndex) && calls == old(calls)
      ensures registry.Some? && |registry.value| > 0 ==>
        var i := NextSkin(old(currentSkinIndex), |registry.value|);
        && savedSkin == Some(i) && currentSkinIndex == ClampedSkin(registry, i)
        && calls == old(calls) +
             if inRoom && !PreviewThrows(registry, hasPreview, currentSkinIndex) then [SendSkin(currentSkinIndex)] else []
    {
      if registry.None? || |registry.value| == 0 {
        return;
      }
      currentSkinIndex := CsRemainder(currentSkinIndex + 1, |registry.value|);
      SaveAndSyncSkin(inRoom);
    }

    method OnPrevSkinClicked(inRoom: bool)
      modifies this`savedSkin, this`currentSkinIndex, this`calls
      ensures registry.None? || |registry.value| == 0 ==>
        savedSkin == old(savedSkin) && currentSkinIndex == old(currentSkinIndex) && calls == old(calls)
      ensures registry.Some? && |registry.value| > 0 ==>
        var i := PrevSkin(old(currentSkinIndex), |registry.value|);
        && savedSkin == Some(i) && currentSkinIndex == ClampedSkin(registry, i)
        && calls == old(calls) + if inRoom then [SendSkin(currentSkinIndex)] else []
    {
      if registry.None? || |registry.value| == 0 {
        return;
      }
      currentSkinIndex := currentSkinIndex - 1;
      if currentSkinIndex < 0 {
        currentSkinIndex := |registry.value| - 1;
      }
      SaveAndSyncSkin(inRoom);
      PrevNeverThrows(registry, hasPreview, old(currentSkinIndex));
    }

    /**
     * Flip the flag, relabel the button and send the new value. `hasManager` says whether
     * `NetworkManager.Instance` exists; without it the send throws after the flag and label
     * have changed, so nothing is sent.
     */
    method OnReadyClicked(hasManager: bool)
      modifies this`isReady, this`readyText, this`calls
      ensures isReady == !old(isReady) && readyText == ReadyLabel(isReady)
      ensures calls == old(calls) + if hasManager then [SendReadyState(isReady)] else []
    {
      isReady := !isReady;
      readyText := if isReady then "READY!" else "READY";
      if !hasManager {
        return;
      }
      calls := calls + [SendReadyState(isReady)];
    }

    /**
     * `CreateGame`, then sync the skin; `inRoomAfter` says whether a room is then set. Without
     * a manager the call to `CreateGame` throws and nothing else happens.
     */
    method OnCreateClicked(hasManager: bool, inRoomAfter: bool)
      modifies this`savedSkin, this`currentSkinIndex, this`calls
      ensures !hasManager ==>
        savedSkin == old(savedSkin) && currentSkinIndex == old(currentSkinIndex) && calls == old(calls)
      ensures hasManager ==>
        && savedSkin == Some(old(currentSkinIndex))
        && currentSkinIndex == ClampedSkin(registry, old(currentSkinIndex))
        && calls == old(calls) + [CreateGame] +
             if inRoomAfter && !PreviewThrows(registry, hasPreview, currentSkinIndex) then [SendSkin(currentSkinIndex)] else []
    {
      if !hasManager {
        return;
      }
      calls := calls + [CreateGame];
      SaveAndSyncSkin(inRoomAfter);
    }

    /**
     * Ignored when already in a room or when the trimmed code is empty; otherwise `JoinGame`
     * with the trimmed code, then sync the skin. `inRoom` is only read when a manager exists;
     * without one the guard lets the click through and the call to `JoinGame` throws.
     */
    method OnJoinClicked(hasManager: bool, inRoom: bool, input: string, inRoomAfter: bool)
      modifies this`savedSkin, this`currentSkinIndex, this`calls
      ensures !hasManager || inRoom || Trim(input) == "" ==>
        savedSkin == old(savedSkin) && currentSkinIndex == old(currentSkinIndex) && calls == old(calls)
      ensures hasManager && !inRoom && Trim(input) != "" ==>
        && savedSkin == Some(old(currentSkinIndex))
        && currentSkinIndex == ClampedSkin(registry, old(currentSkinIndex))
        && calls == old(calls) + [JoinGame(Trim(input))] +
             if inRoomAfter && !PreviewThrows(registry, hasPreview, currentSkinIndex) then [SendSkin(currentSkinIndex)] else []
    {
      if hasManager && inRoom {
        return;
      }
      var code := Trim(input);
      if code == "" {
        return;
      }
      if !hasManager {
        return;
      }
      calls := calls + [JoinGame(code)];
      SaveAndSyncSkin(inRoomAfter);
    }

    /** Refresh the count and the roster; with no room (or no state) nothing changes. */
    method UpdateLobbyUI(room: Option<RoomView>)
      modifies this`countText, this`rosterText
      ensures room.None? ==> countText == old(countText) && rosterText == old(rosterText)
      ensures room.Some? ==>
        countText == CountText(|room.value.players|) &&
        rosterText == RosterText(room.value.players, room.value.sessionId)
    {
      if room.None? {
        return;
      }
      countText := "Players: " + ToDecimal(|room.value.players|) + "/4";
      rosterText := BuildRoster(room.value.players, room.value.sessionId);
    }
  }

  /** Two ready clicks restore the flag and leave the label matching it. */
  method ClickReadyTwice(ui: LobbyUI)
    modifies ui
    ensures ui.isReady == old(ui.isReady) && ui.readyText == ReadyLabel(ui.isReady)
    ensures ui.calls == old(ui.calls) + [SendReadyState(!old(ui.isReady)), SendReadyState(old(ui.isReady))]
  {
    ui.OnReadyClicked(true);
    ui.OnReadyClicked(true);
  }
}
