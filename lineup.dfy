/**
 * The `/lineup` command of `commands/lineup.js`: the name autocomplete, the
 * manager gate of `execute`, and the handlers over the guild's lineups.
 */
module Lineup {
  import opened Wrappers
  import opened Text
  import opened Embeds
  import Validation
  import LineupManager

  type Lineup = LineupManager.Lineup
  type Player = LineupManager.Player

  // ---------------------------------------------------------------------------
  // autocomplete
  // ---------------------------------------------------------------------------

  /** The most suggestions Discord accepts. */
  const MaxChoices := 25

  /** One suggestion: the lineup name as both label and value. */
  datatype Choice = Choice(name: string, value: string)

  /** The lineup's name contains the typed text, ignoring case. */
  predicate NameMatches(l: Lineup, focused: string) {
    Contains(ToLower(l.name), ToLower(focused))
  }

  /** The matching lineups, in order. */
  function Matching(lineups: seq<Lineup>, focused: string): (r: seq<Lineup>)
    ensures |r| <= |lineups|
    ensures forall i :: 0 <= i < |r| ==> r[i] in lineups && NameMatches(r[i], focused)
    ensures forall l :: l in lineups && NameMatches(l, focused) ==> l in r
  {
    if lineups == [] then []
    else
      var last := lineups[|lineups| - 1];
      assert lineups == lineups[..|lineups| - 1] + [last];
      Matching(lineups[..|lineups| - 1], focused) + (if NameMatches(last, focused) then [last] else [])
  }

  /**
   * The suggestions keep the lineups' order: the selection distributes over
   * concatenation, and a single lineup is kept exactly when its name matches.
   */
  lemma {:induction false} MatchingAppend(a: seq<Lineup>, b: seq<Lineup>, focused: string)
    ensures Matching(a + b, focused) == Matching(a, focused) + Matching(b, focused)
    ensures |b| == 1 ==> Matching(b, focused) == if NameMatches(b[0], focused) then b else []
  {
    if b != [] {
      var init := b[..|b| - 1];
      assert (a + b)[..|a + b| - 1] == a + init;
      assert (a + b)[|a + b| - 1] == b[|b| - 1];
      MatchingAppend(a, init, focused);
    } else {
      assert a + b == a;
    }
  }

  function Choices(ls: seq<Lineup>): (r: seq<Choice>)
    ensures |r| == |ls|
    ensures forall i :: 0 <= i < |ls| ==> r[i] == Choice(ls[i].name, ls[i].name)
  {
    if ls == [] then [] else [Choice(ls[0].name, ls[0].name)] + Choices(ls[1..])
  }

  /**
   * `autocomplete(interaction)`: nothing without lineups; otherwise the first
   * 25 lineups whose name contains the typed text, ignoring case, in order.
   */
  function Autocomplete(lineups: Option<seq<Lineup>>, focused: string): (r: seq<Choice>)
    ensures lineups.None? || lineups.value == [] ==> r == []
    ensures |r| <= MaxChoices
    ensures lineups.Some? ==>
      var m := Matching(lineups.value, focused);
      r == Choices(m[..if |m| < MaxChoices then |m| else MaxChoices])
  {
    if lineups.None? || |lineups.value| == 0 then []
    else
      var m := Matching(lineups.value, focused);
      Choices(m[..if |m| < MaxChoices then |m| else MaxChoices])
  }

  /**
   * Every suggestion names a matching lineup; and when at most 25 lineups
   * match, every one of them is suggested.
   */
  lemma AutocompleteSound(lineups: seq<Lineup>, focused: string)
    ensures forall i :: 0 <= i < |Autocomplete(Some(lineups), focused)| ==>
      exists l :: l in lineups && NameMatches(l, focused) && Autocomplete(Some(lineups), focused)[i].name == l.name
    ensures |Matching(lineups, focused)| <= MaxChoices ==>
      forall l :: l in lineups && NameMatches(l, focused) ==> Choice(l.name, l.name) in Autocomplete(Some(lineups), focused)
  {
    var m := Matching(lineups, focused);
    var r := Autocomplete(Some(lineups), focused);
    var k := if |m| < MaxChoices then |m| else MaxChoices;
    forall i | 0 <= i < |r|
      ensures exists l :: l in lineups && NameMatches(l, focused) && r[i].name == l.name
    {
      assert m[..k][i] == m[i];
      assert m[i] in lineups && NameMatches(m[i], focused);
    }
    if |m| <= MaxChoices {
      forall l | l in lineups && NameMatches(l, focused)
        ensures Choice(l.name, l.name) in r
      {
        assert m[..k] == m;
        var j :| 0 <= j < |m| && m[j] == l;
        assert r[j] == Choice(l.name, l.name);
      }
    }
  }

  /** The empty text matches every lineup name. */
  lemma EmptyTextMatchesAll(l: Lineup)
    ensures NameMatches(l, "")
  {
    assert InfixAt(ToLower(l.name), ToLower(""), 0);
  }

  // ---------------------------------------------------------------------------
  // The manager gate of execute
  // ---------------------------------------------------------------------------

  /** The subcommands only managers may run. */
  predicate RequiresManager(subcommand: string) {
    subcommand in {"create", "add", "remove", "edit", "delete", "post"}
  }

  /**
   * The gate of `execute`: the denial reply for a gated subcommand and a
   * caller without manager permission, otherwise none and the handler runs.
   */
  function Gate(subcommand: string, isManager: bool): (r: Option<Embed>)
    ensures r.Some? <==> RequiresManager(subcommand) && !isManager
    ensures r.Some? ==> r.value == ManagerDenied()
  {
    if RequiresManager(subcommand) && !isManager then Some(ManagerDenied()) else None
  }

  /** 'view' and 'list' are open to every caller; a manager passes the gate for every subcommand. */
  lemma GateOpenings(isManager: bool, subcommand: string)
    ensures Gate("view", isManager).None? && Gate("list", isManager).None?
    ensures Gate(subcommand, true).None?
  {
  }

  // ---------------------------------------------------------------------------
  // Player list updates
  // ---------------------------------------------------------------------------

  /**
   * `addPlayerToLineup(lineupId, userId, position)`: the first entry of the
   * user gets the position, or the user is appended when absent.
   */
  function Upsert(players: seq<Player>, userId: string, position: string): seq<Player> {
    if players == [] then [LineupManager.Player(userId, position)]
    else if players[0].userId == userId then [LineupManager.Player(userId, position)] + players[1..]
    else [players[0]] + Upsert(players[1..], userId, position)
  }

  /**
   * After the upsert the user has the position and every other user has the
   * position they had; a new user is appended at the end, a listed one is
   * updated in place.
   */
  lemma {:induction false} UpsertFacts(players: seq<Player>, userId: string, position: string, v: string)
    ensures var r := Upsert(players, userId, position);
      LineupManager.FindPosition(r, v) == if v == userId then Some(position) else LineupManager.FindPosition(players, v)
    ensures LineupManager.FindPosition(players, userId).None? ==>
      Upsert(players, userId, position) == players + [LineupManager.Player(userId, position)]
    ensures LineupManager.FindPosition(players, userId).Some? ==> |Upsert(players, userId, position)| == |players|
  {
    var r := Upsert(players, userId, position);
    var p := LineupManager.Player(userId, position);
    if players == [] {
      FindPositionCons(p, [], v);
      FindPositionCons(p, [], userId);
    } else {
      assert players == [players[0]] + players[1..];
      FindPositionCons(players[0], players[1..], v);
      FindPositionCons(players[0], players[1..], userId);
      if players[0].userId == userId {
        FindPositionCons(p, players[1..], v);
      } else {
        var rest := Upsert(players[1..], userId, position);
        UpsertFacts(players[1..], userId, position, v);
        FindPositionCons(players[0], rest, v);
      }
    }
  }

  /** The lookup in a list with a first player. */
  lemma FindPositionCons(p: Player, rest: seq<Player>, v: string)
    ensures LineupManager.FindPosition([p] + rest, v) == if p.userId == v then Some(p.position) else LineupManager.FindPosition(rest, v)
  {
    assert ([p] + rest)[1..] == rest;
  }

  /** `removePlayerFromLineup(lineupId, userId)`: every entry of the user goes, the rest keep their order. */
  function RemovePlayer(players: seq<Player>, userId: string): (r: seq<Player>)
    ensures LineupManager.FindPosition(r, userId).None?
    ensures |r| <= |players|
  {
    if players == [] then []
    else if players[0].userId == userId then RemovePlayer(players[1..], userId)
    else [players[0]] + RemovePlayer(players[1..], userId)
  }

  /** Removing one user leaves every other user's position as it was. */
  lemma {:induction false} RemovePlayerKeepsOthers(players: seq<Player>, userId: string, v: string)
    requires v != userId
    ensures LineupManager.FindPosition(RemovePlayer(players, userId), v) == LineupManager.FindPosition(players, v)
  {
    if players != [] {
      RemovePlayerKeepsOthers(players[1..], userId, v);
      if players[0].userId != userId {
        var r := RemovePlayer(players, userId);
        assert r == [players[0]] + RemovePlayer(players[1..], userId);
        if players[0].userId == v {
          assert LineupManager.FirstWith(r, v, 0);
          assert LineupManager.FirstWith(players, v, 0);
        } else {
          assert r[1..] == RemovePlayer(players[1..], userId);
        }
      }
    }
  }

  // ---------------------------------------------------------------------------
  // Replies
  // ---------------------------------------------------------------------------

  function NotFound(name: string): Embed {
    ErrorEmbed("Lineup Not Found", "Lineup **" + name + "** does not exist.")
  }

  function Created(name: string): Embed {
    SuccessEmbed("Lineup Created", "Successfully created lineup **" + name + "**\nUse `/lineup add` to add players.")
  }

  function Exists(name: string): Embed {
    ErrorEmbed("Lineup Exists", "A lineup named **" + name + "** already exists.")
  }

  function PlayerAdded(userId: string, name: string, position: string): Embed {
    SuccessEmbed("Player Added", "Added " + Mention(userId) + " to **" + name + "** as **" + position + "**")
  }

  function PlayerRemoved(userId: string, name: string): Embed {
    SuccessEmbed("Player Removed", "Removed " + Mention(userId) + " from **" + name + "**")
  }

  function PositionUpdated(userId: string, name: string, position: string): Embed {
    SuccessEmbed("Position Updated", "Updated " + Mention(userId) + "'s position to **" + position + "** in **" + name + "**")
  }

  function NoLineups(): Embed {
    ErrorEmbed("No Lineups", "No lineups have been created yet.\nUse `/lineup create` to make one.")
  }

  function Deleted(name: string): Embed {
    SuccessEmbed("Lineup Deleted", "Successfully deleted lineup **" + name + "**")
  }

  function Posted(name: string, channelId: string): Embed {
    SuccessEmbed("Lineup Posted", "Posted **" + name + "** to <#" + channelId + ">")
  }

  // ---------------------------------------------------------------------------
  // The list bullet
  // ---------------------------------------------------------------------------

  /** The bullet of `handleList` as written in the file: three characters. */
  const BulletAsWritten := "\U{00E2}\U{20AC}\U{00A2}"

  /** The bullet intended, U+2022. */
  const Bullet := "\U{2022}"

  /** The three bytes of the UTF-8 encoding of a code point in U+0800..U+FFFF (section 3 of RFC 3629). */
  function Utf8ThreeBytes(cp: int): seq<int>
    requires 0x800 <= cp <= 0xFFFF
  {
    [0xE0 + cp / 4096, 0x80 + (cp / 64) % 64, 0x80 + cp % 64]
  }

  /** Windows-1252 reading of a byte, for the bytes that occur here. */
  function Cp1252(b: int): char {
    if b == 0x80 then '\U{20AC}'
    else if 0xA0 <= b <= 0xFF then b as char
    else '?'
  }

  /**
   * The written bullet is the UTF-8 encoding of '•' read back as
   * Windows-1252: the list lines start with three stray characters.
   */
  lemma BulletIsMisdecoded()
    ensures Utf8ThreeBytes(0x2022) == [0xE2, 0x80, 0xA2]
    ensures BulletAsWritten == [Cp1252(0xE2), Cp1252(0x80), Cp1252(0xA2)]
    ensures BulletAsWritten != Bullet && |BulletAsWritten| == 3 * |Bullet|
  {
  }

  /** One line of the list as written. */
  function ListLineAsWritten(l: Lineup): string {
    BulletAsWritten + " **" + l.name + "**" + (if Truthy(l.description) then " - " + l.description.value else "")
  }

  /** One line of the list: '• **name**', and ' - description' only when there is one. */
  function ListLine(l: Lineup): (r: string)
    ensures !Truthy(l.description) ==> r == Bullet + " **" + l.name + "**"
    ensures Truthy(l.description) ==> r == Bullet + " **" + l.name + "** - " + l.description.value
  {
    Bullet + " **" + l.name + "**" + (if Truthy(l.description) then " - " + l.description.value else "")
  }

  /** The written line and the corrected one differ exactly in the bullet. */
  lemma ListLineDiffersInBullet(l: Lineup)
    ensures ListLineAsWritten(l) == BulletAsWritten + ListLine(l)[|Bullet|..]
    ensures ListLineAsWritten(l) != ListLine(l)
  {
    assert ListLineAsWritten(l)[0] != ListLine(l)[0];
  }

  function ListLines(ls: seq<Lineup>): (r: seq<string>)
    ensures |r| == |ls|
    ensures forall i :: 0 <= i < |ls| ==> r[i] == ListLine(ls[i])
  {
    if ls == [] then [] else [ListLine(ls[0])] + ListLines(ls[1..])
  }

  /** The lines `handleList` sends: the corrected lines with the written bullet in front. */
  function ListLinesAsWritten(ls: seq<Lineup>): (r: seq<string>)
    ensures |r| == |ls|
    ensures forall i :: 0 <= i < |ls| ==> r[i] == BulletAsWritten + ListLines(ls)[i][|Bullet|..]
  {
    if ls == [] then []
    else
      ListLineDiffersInBullet(ls[0]);
      [ListLineAsWritten(ls[0])] + ListLinesAsWritten(ls[1..])
  }

  // ---------------------------------------------------------------------------
  // The store and the handlers
  // ---------------------------------------------------------------------------

  /** Names are unique. */
  predicate UniqueNames(ls: seq<Lineup>) {
    forall i, j :: 0 <= i < j < |ls| ==> ls[i].name != ls[j].name
  }

  /** `getLineup(guildId, name)`: the index of the lineup with that name, or -1. */
  function IndexOfName(ls: seq<Lineup>, name: string): (r: int)
    ensures -1 <= r < |ls|
    ensures r == -1 <==> forall i :: 0 <= i < |ls| ==> ls[i].name != name
    ensures r >= 0 ==> ls[r].name == name
  {
    if ls == [] then -1
    else if ls[0].name == name then 0
    else
      var r := IndexOfName(ls[1..], name);
      if r == -1 then -1 else r + 1
  }

  /** The lineups of one guild, in creation order. */
  class LineupStore {
    var lineups: seq<Lineup>

    ghost predicate Valid()
      reads this
    {
      UniqueNames(lineups)
    }

    constructor ()
      ensures lineups == [] && Valid()
    {
      lineups := [];
    }

    /**
     * `handleCreate`: the name cut to 50 characters and the description to
     * 200; a second lineup of the same name is refused ('DUPLICATE_LINEUP').
     */
    method Create(nameOption: Option<string>, descriptionOption: Option<string>, callerId: string) returns (reply: Embed)
      requires Valid()
      modifies this
      ensures Valid()
      ensures var name := Validation.SanitizeInput(nameOption, 50);
        var description := Validation.SanitizeInput(descriptionOption, 200);
        && (IndexOfName(old(lineups), name) >= 0 ==> reply == Exists(name) && lineups == old(lineups))
        && (IndexOfName(old(lineups), name) == -1 ==>
              reply == Created(name)
              && lineups == old(lineups) + [LineupManager.Lineup(name, Some(description), Some([]), callerId)])
    {
      var name := Validation.SanitizeInput(nameOption, 50);
      var description := Validation.SanitizeInput(descriptionOption, 200);
      if IndexOfName(lineups, name) >= 0 {
        return Exists(name);
      }
      lineups := lineups + [LineupManager.Lineup(name, Some(description), Some([]), callerId)];
      reply := Created(name);
    }

    /** The upsert shared by `handleAdd` and `handleEdit`: the sanitised, upper-cased position for that user. */
    method SetPosition(lineupOption: Option<string>, userId: string, positionOption: Option<string>)
      returns (found: bool, name: string, position: string)
      requires Valid()
      modifies this
      ensures Valid()
      ensures name == Validation.SanitizeInput(lineupOption, Validation.DefaultMaxLength)
      ensures position == ToUpper(Validation.SanitizeInput(positionOption, 50))
      ensures found <==> IndexOfName(old(lineups), name) >= 0
      ensures !found ==> lineups == old(lineups)
      ensures found ==>
        var i := IndexOfName(old(lineups), name);
        lineups == old(lineups)[i := old(lineups)[i].(players := Some(Upsert(LineupManager.PlayersOf(old(lineups)[i]), userId, position)))]
    {
      name := Validation.SanitizeInput(lineupOption, Validation.DefaultMaxLength);
      position := ToUpper(Validation.SanitizeInput(positionOption, 50));
      var i := IndexOfName(lineups, name);
      if i == -1 {
        return false, name, position;
      }
      var l := lineups[i];
      lineups := lineups[i := l.(players := Some(Upsert(LineupManager.PlayersOf(l), userId, position)))];
      found := true;
    }

    /** `handleAdd`. */
    method Add(lineupOption: Option<string>, userId: string, positionOption: Option<string>) returns (reply: Embed)
      requires Valid()
      modifies this
      ensures Valid()
      ensures var name := Validation.SanitizeInput(lineupOption, Validation.DefaultMaxLength);
        var position := ToUpper(Validation.SanitizeInput(positionOption, 50));
        var i := IndexOfName(old(lineups), name);
        && (i == -1 ==> reply == NotFound(name) && lineups == old(lineups))
        && (i >= 0 ==> (reply == PlayerAdded(userId, name, position)
              && lineups == old(lineups)[i := old(lineups)[i].(players := Some(Upsert(LineupManager.PlayersOf(old(lineups)[i]), userId, position)))]))
    {
      var found, name, position := SetPosition(lineupOption, userId, positionOption);
      if !found {
        return NotFound(name);
      }
      reply := PlayerAdded(userId, name, position);
    }

    /** `handleEdit`: the same store call as an add, with its own reply. */
    method Edit(lineupOption: Option<string>, userId: string, positionOption: Option<string>) returns (reply: Embed)
      requires Valid()
      modifies this
      ensures Valid()
      ensures var name := Validation.SanitizeInput(lineupOption, Validation.DefaultMaxLength);
        var position := ToUpper(Validation.SanitizeInput(positionOption, 50));
        var i := IndexOfName(old(lineups), name);
        && (i == -1 ==> reply == NotFound(name) && lineups == old(lineups))
        && (i >= 0 ==> (reply == PositionUpdated(userId, name, position)
              && lineups == old(lineups)[i := old(lineups)[i].(players := Some(Upsert(LineupManager.PlayersOf(old(lineups)[i]), userId, position)))]))
    {
      var found, name, position := SetPosition(lineupOption, userId, positionOption);
      if !found {
        return NotFound(name);
      }
      reply := PositionUpdated(userId, name, position);
    }

    /** `handleRemove`: drops the user from an existing lineup, whether or not it was listed. */
    method Remove(lineupOption: Option<string>, userId: string) returns (reply: Embed)
      requires Valid()
      modifies this
      ensures Valid()
      ensures var name := Validation.SanitizeInput(lineupOption, Validation.DefaultMaxLength);
        var i := IndexOfName(old(lineups), name);
        && (i == -1 ==> reply == NotFound(name) && lineups == old(lineups))
        && (i >= 0 ==> (reply == PlayerRemoved(userId, name)
              && lineups == old(lineups)[i := old(lineups)[i].(players := Some(RemovePlayer(LineupManager.PlayersOf(old(lineups)[i]), userId)))]))
    {
      var name := Validation.SanitizeInput(lineupOption, Validation.DefaultMaxLength);
      var i := IndexOfName(lineups, name);
      if i == -1 {
        return NotFound(name);
      }
      var l := lineups[i];
      lineups := lineups[i := l.(players := Some(RemovePlayer(LineupManager.PlayersOf(l), userId)))];
      reply := PlayerRemoved(userId, name);
    }

    /** `handleView`: the lineup embed of an existing lineup. */
    method View(lineupOption: Option<string>) returns (reply: Embed)
      ensures var name := Validation.SanitizeInput(lineupOption, Validation.DefaultMaxLength);
        var i := IndexOfName(lineups, name);
        && (i == -1 ==> reply == NotFound(name))
        && (i >= 0 ==> reply == LineupEmbed(lineups[i]))
    {
      var name := Validation.SanitizeInput(lineupOption, Validation.DefaultMaxLength);
      var i := IndexOfName(lineups, name);
      if i == -1 {
        return NotFound(name);
      }
      reply := LineupEmbed(lineups[i]);
    }

    /** `handleList`: one line per lineup in order, with the written bullet, joined by newlines. */
    method List() returns (reply: Embed)
      ensures lineups == [] ==> reply == NoLineups()
      ensures lineups != [] ==> reply == SuccessEmbed("Server Lineups", Join(ListLinesAsWritten(lineups), "\n"))
    {
      if |lineups| == 0 {
        return NoLineups();
      }
      reply := SuccessEmbed("Server Lineups", Join(ListLinesAsWritten(lineups), "\n"));
    }

    /** `handleDelete`: removes the lineup of that name. */
    method Delete(lineupOption: Option<string>) returns (reply: Embed)
      requires Valid()
      modifies this
      ensures Valid()
      ensures var name := Validation.SanitizeInput(lineupOption, Validation.DefaultMaxLength);
        var i := IndexOfName(old(lineups), name);
        && (i == -1 ==> reply == NotFound(name) && lineups == old(lineups))
        && (i >= 0 ==> reply == Deleted(name) && lineups == old(lineups)[..i] + old(lineups)[i + 1..])
    {
      var name := Validation.SanitizeInput(lineupOption, Validation.DefaultMaxLength);
      var i := IndexOfName(lineups, name);
      if i == -1 {
        return NotFound(name);
      }
      lineups := lineups[..i] + lineups[i + 1..];
      reply := Deleted(name);
    }

    /**
     * `handlePost`: sends the lineup embed to the chosen channel, or to the
     * current one, and confirms.
     */
    method Post(lineupOption: Option<string>, channelOption: Option<string>, currentChannel: string)
      returns (reply: Embed, sent: Option<(string, Embed)>)
      ensures var name := Validation.SanitizeInput(lineupOption, Validation.DefaultMaxLength);
        var channel := channelOption.GetOr(currentChannel);
        var i := IndexOfName(lineups, name);
        && (i == -1 ==> reply == NotFound(name) && sent.None?)
        && (i >= 0 ==> sent == Some((channel, LineupEmbed(lineups[i]))) && reply == Posted(name, channel))
    {
      var name := Validation.SanitizeInput(lineupOption, Validation.DefaultMaxLength);
      var channel := channelOption.GetOr(currentChannel);
      var i := IndexOfName(lineups, name);
      if i == -1 {
        return NotFound(name), None;
      }
      sent := Some((channel, LineupEmbed(lineups[i])));
      reply := Posted(name, channel);
    }
  }

  /** Deleting one lineup keeps the other names unique. */
  lemma DeleteKeepsUniqueNames(ls: seq<Lineup>, i: int)
    requires UniqueNames(ls) && 0 <= i < |ls|
    ensures UniqueNames(ls[..i] + ls[i + 1..])
  {
    var r := ls[..i] + ls[i + 1..];
    forall a, b | 0 <= a < b < |r| ensures r[a].name != r[b].name {
      var a' := if a < i then a else a + 1;
      var b' := if b < i then b else b + 1;
      assert r[a] == ls[a'] && r[b] == ls[b'];
    }
  }
}
