/**
 * The `/setup` command of `commands/setup.js`: writes the given channels and
 * roles into the guild record, one summary line each, and marks the setup
 * completed. The record is created or renamed first, even when nothing is
 * given.
 */
module Setup {
  import opened Wrappers
  import opened Text
  import opened Embeds
  import opened GuildData

  /** Whether an option names a channel or a role; it decides how it is mentioned. */
  datatype Kind = ChannelKind | RoleKind

  /** One option: where it is written (`key`), the text of its summary line, and the chosen id, if any. */
  datatype Slot = Slot(kind: Kind, key: string, text: string, value: Option<string>)

  /** The channel options, in the order the handler writes them. */
  function ChannelSlots(history: Option<string>, leagueLog: Option<string>, signRequest: Option<string>, offerAccept: Option<string>): seq<Slot> {
    [ Slot(ChannelKind, "history", "\U{1F4DC} History Channel: ", history),
      Slot(ChannelKind, "league_log", "\U{1F4CB} League Log Channel: ", leagueLog),
      Slot(ChannelKind, "sign_request", "\U{270D}\U{FE0F} Sign Request Channel: ", signRequest),
      Slot(ChannelKind, "offer_accept", "\U{2705} Offer Accept Channel: ", offerAccept) ]
  }

  /** The role options, in the order the handler writes them. */
  function RoleSlots(gtRole: Option<string>, staff: Option<string>, manager: Option<string>, anchor: Option<string>): seq<Slot> {
    [ Slot(RoleKind, "gt_role", "\U{1F3AE} Game Time Role: ", gtRole),
      Slot(RoleKind, "staff", "\U{1F46E} Staff Role: ", staff),
      Slot(RoleKind, "manager", "\U{1F451} Manager Role: ", manager),
      Slot(RoleKind, "anchor", "\U{2693} Anchor Role: ", anchor) ]
  }

  /** The keys of a list of slots. */
  function Keys(slots: seq<Slot>): (r: seq<string>)
    ensures |r| == |slots| && forall i :: 0 <= i < |slots| ==> r[i] == slots[i].key
  {
    seq(|slots|, i requires 0 <= i < |slots| => slots[i].key)
  }

  predicate DistinctKeys(slots: seq<Slot>) {
    forall i, j :: 0 <= i < j < |slots| ==> slots[i].key != slots[j].key
  }

  /** The summary line of a given option. */
  function Line(slot: Slot): string
    requires slot.value.Some?
  {
    slot.text + (if slot.kind == ChannelKind then ChannelMention(slot.value.value) else RoleMention(slot.value.value))
  }

  /** How many of the options are given. */
  function GivenCount(slots: seq<Slot>): nat {
    if slots == [] then 0 else (if slots[0].value.Some? then 1 else 0) + GivenCount(slots[1..])
  }

  /** The summary lines of the given options, in order. */
  function Summary(slots: seq<Slot>): (r: seq<string>)
    ensures |r| == GivenCount(slots)
    ensures forall i :: 0 <= i < |slots| && slots[i].value.Some? ==> Line(slots[i]) in r
  {
    if slots == [] then []
    else
      var rest := Summary(slots[1..]);
      assert forall i :: 1 <= i < |slots| ==> slots[i] == slots[1..][i - 1];
      (if slots[0].value.Some? then [Line(slots[0])] else []) + rest
  }

  /** The map after writing every given option under its key, front to back. */
  function Written(m: map<string, string>, slots: seq<Slot>): map<string, string>
    decreases |slots|
  {
    if slots == [] then m
    else Written(if slots[0].value.Some? then m[slots[0].key := slots[0].value.value] else m, slots[1..])
  }

  /** A key no slot names keeps its entry. */
  lemma {:induction false} WrittenLeavesOthers(m: map<string, string>, slots: seq<Slot>, k: string)
    requires k !in Keys(slots)
    ensures k in Written(m, slots) <==> k in m
    ensures k in m ==> Written(m, slots)[k] == m[k]
    decreases |slots|
  {
    if slots != [] {
      assert k != Keys(slots)[0];
      assert Keys(slots[1..]) == Keys(slots)[1..];
      var m' := if slots[0].value.Some? then m[slots[0].key := slots[0].value.value] else m;
      WrittenLeavesOthers(m', slots[1..], k);
    }
  }

  /** With distinct keys, a given option ends up under its key and a missing one leaves its key as it was. */
  lemma {:induction false} WrittenSlot(m: map<string, string>, slots: seq<Slot>, i: int)
    requires DistinctKeys(slots) && 0 <= i < |slots|
    ensures slots[i].value.Some? ==> slots[i].key in Written(m, slots) && Written(m, slots)[slots[i].key] == slots[i].value.value
    ensures slots[i].value.None? ==> (slots[i].key in Written(m, slots) <==> slots[i].key in m)
    ensures slots[i].value.None? && slots[i].key in m ==> Written(m, slots)[slots[i].key] == m[slots[i].key]
    decreases |slots|
  {
    var m' := if slots[0].value.Some? then m[slots[0].key := slots[0].value.value] else m;
    if i == 0 {
      assert slots[0].key !in Keys(slots[1..]);
      WrittenLeavesOthers(m', slots[1..], slots[0].key);
    } else {
      assert slots[1..][i - 1] == slots[i];
      WrittenSlot(m', slots[1..], i - 1);
      if slots[i].value.None? {
        assert slots[0].key != slots[i].key;
      }
    }
  }

  /** The record `createGuild` leaves: renamed, or new. */
  function Created(guilds: map<string, Guild>, id: string, name: string): Guild {
    if id in guilds then guilds[id].(name := name) else NewGuild(name)
  }

  /**
   * The stored guilds after the command: the record created or renamed; and
   * when at least one option is given, every given channel and role written,
   * and the setup marked completed.
   */
  function AfterSetup(guilds: map<string, Guild>, id: string, name: string, channels: seq<Slot>, roles: seq<Slot>): map<string, Guild> {
    var g := Created(guilds, id, name);
    if GivenCount(channels) + GivenCount(roles) == 0 then guilds[id := g]
    else guilds[id := g.(channels := Written(g.channels, channels), roles := Written(g.roles, roles), setupCompleted := true)]
  }

  function NoChanges(): Embed {
    ErrorEmbed("No Changes", "Please provide at least one option to configure.")
  }

  function SetupUpdated(updates: seq<string>): Embed {
    SuccessEmbed("\U{2705} Setup Updated", "Successfully updated bot configuration:\n\n" + Join(updates, "\n"))
  }

  /** The record after writing `slots` into its channels or its roles, as `kind` says. */
  function Put(g: Guild, kind: Kind, slots: seq<Slot>): Guild {
    if kind == ChannelKind then g.(channels := Written(g.channels, slots)) else g.(roles := Written(g.roles, slots))
  }

  /** One guarded write of the handler: when the option is given, write it and add its summary line. */
  method Apply(store: GuildStore, id: string, slot: Slot, updates: seq<string>) returns (updates': seq<string>)
    requires id in store.guilds
    modifies store
    ensures store.guilds == old(store.guilds)[id := Put(old(store.guilds)[id], slot.kind, [slot])]
    ensures updates' == updates + Summary([slot])
  {
    assert [slot][1..] == [];
    ghost var g := store.guilds[id];
    WrittenOne(g.channels, slot);
    WrittenOne(g.roles, slot);
    updates' := updates;
    if slot.value.Some? {
      if slot.kind == ChannelKind {
        store.SetGuildChannel(id, slot.key, slot.value.value);
      } else {
        store.SetGuildRole(id, slot.key, slot.value.value);
      }
      updates' := updates + [Line(slot)];
    }
  }

  /** All options of one kind, in order: each written under its key, one summary line each. */
  method ApplyAll(store: GuildStore, id: string, kind: Kind, slots: seq<Slot>, updates: seq<string>) returns (updates': seq<string>)
    requires id in store.guilds
    requires forall i :: 0 <= i < |slots| ==> slots[i].kind == kind
    modifies store
    ensures store.guilds == old(store.guilds)[id := Put(old(store.guilds)[id], kind, slots)]
    ensures updates' == updates + Summary(slots)
  {
    ghost var before := store.guilds;
    ghost var g := before[id];
    updates' := updates;
    assert Put(g, kind, slots[..0]) == g;
    for i := 0 to |slots|
      invariant store.guilds == before[id := Put(g, kind, slots[..i])]
      invariant updates' == updates + Summary(slots[..i])
    {
      updates' := Apply(store, id, slots[i], updates');
      PutSnoc(g, kind, slots[..i], slots[i]);
      SummarySnoc(slots[..i], slots[i]);
      assert slots[..i + 1] == slots[..i] + [slots[i]];
    }
    assert slots[..|slots|] == slots;
  }

  lemma WrittenOne(m: map<string, string>, s: Slot)
    ensures Written(m, [s]) == if s.value.Some? then m[s.key := s.value.value] else m
  {
    assert [s][1..] == [];
  }

  lemma PutSnoc(g: Guild, kind: Kind, slots: seq<Slot>, s: Slot)
    ensures Put(Put(g, kind, slots), kind, [s]) == Put(g, kind, slots + [s])
  {
    WrittenSnoc(g.channels, slots, s);
    WrittenSnoc(g.roles, slots, s);
  }

  /** No option is given exactly when both lists count none. */
  lemma NoneGiven(
    gtRole: Option<string>, history: Option<string>, leagueLog: Option<string>, signRequest: Option<string>,
    offerAccept: Option<string>, staff: Option<string>, manager: Option<string>, anchor: Option<string>)
    ensures GivenCount(ChannelSlots(history, leagueLog, signRequest, offerAccept)) + GivenCount(RoleSlots(gtRole, staff, manager, anchor)) == 0
      <==> (gtRole.None? && history.None? && leagueLog.None? && signRequest.None?
        && offerAccept.None? && staff.None? && manager.None? && anchor.None?)
  {
    var c := ChannelSlots(history, leagueLog, signRequest, offerAccept);
    var r := RoleSlots(gtRole, staff, manager, anchor);
    GivenCountFour(c[0], c[1], c[2], c[3]);
    GivenCountFour(r[0], r[1], r[2], r[3]);
    assert c == [c[0], c[1], c[2], c[3]] && r == [r[0], r[1], r[2], r[3]];
  }

  function Given(s: Slot): nat {
    if s.value.Some? then 1 else 0
  }

  lemma GivenCountFour(a: Slot, b: Slot, c: Slot, d: Slot)
    ensures GivenCount([a, b, c, d]) == Given(a) + Given(b) + Given(c) + Given(d)
  {
    assert [d][1..] == [];
    assert GivenCount([d]) == Given(d);
    assert [c, d][1..] == [d];
    assert GivenCount([c, d]) == Given(c) + GivenCount([d]);
    assert [b, c, d][1..] == [c, d];
    assert GivenCount([b, c, d]) == Given(b) + GivenCount([c, d]);
    assert [a, b, c, d][1..] == [b, c, d];
  }

  /** The writes after the options check: channels, then roles, then the completed flag. */
  method Configure(store: GuildStore, id: string, channels: seq<Slot>, roles: seq<Slot>) returns (reply: Embed)
    requires id in store.guilds
    requires forall i :: 0 <= i < |channels| ==> channels[i].kind == ChannelKind
    requires forall i :: 0 <= i < |roles| ==> roles[i].kind == RoleKind
    modifies store
    ensures var g := old(store.guilds)[id];
      store.guilds == old(store.guilds)[id := g.(channels := Written(g.channels, channels), roles := Written(g.roles, roles), setupCompleted := true)]
    ensures reply == SetupUpdated(Summary(channels) + Summary(roles))
  {
    ghost var before := store.guilds;
    ghost var g := before[id];
    ghost var g1 := Put(g, ChannelKind, channels);
    ghost var g2 := Put(g1, RoleKind, roles);
    assert g2 == g.(channels := Written(g.channels, channels), roles := Written(g.roles, roles));
    var updates := ApplyAll(store, id, ChannelKind, channels, []);
    assert store.guilds == before[id := g1];
    assert [] + Summary(channels) == Summary(channels);
    updates := ApplyAll(store, id, RoleKind, roles, updates);
    assert store.guilds == before[id := g1][id := g2];
    assert before[id := g1][id := g2] == before[id := g2];
    store.UpdateGuildSetup(id, true);
    reply := SetupUpdated(updates);
  }

  lemma SlotKinds(
    gtRole: Option<string>, history: Option<string>, leagueLog: Option<string>, signRequest: Option<string>,
    offerAccept: Option<string>, staff: Option<string>, manager: Option<string>, anchor: Option<string>)
    ensures var c := ChannelSlots(history, leagueLog, signRequest, offerAccept);
      forall i :: 0 <= i < |c| ==> c[i].kind == ChannelKind
    ensures var r := RoleSlots(gtRole, staff, manager, anchor);
      forall i :: 0 <= i < |r| ==> r[i].kind == RoleKind
  {
  }

  /**
   * The handler after reading its options: creates or renames the record;
   * refuses with 'No Changes' when `noneGiven`; otherwise configures.
   */
  method Run(store: GuildStore, id: string, name: string, channels: seq<Slot>, roles: seq<Slot>, noneGiven: bool)
    returns (reply: Embed)
    requires noneGiven <==> GivenCount(channels) + GivenCount(roles) == 0
    requires forall i :: 0 <= i < |channels| ==> channels[i].kind == ChannelKind
    requires forall i :: 0 <= i < |roles| ==> roles[i].kind == RoleKind
    modifies store
    ensures store.guilds == AfterSetup(old(store.guilds), id, name, channels, roles)
    ensures reply == (if noneGiven then NoChanges() else SetupUpdated(Summary(channels) + Summary(roles)))
  {
    ghost var before := store.guilds;
    ghost var g := Created(before, id, name);
    store.CreateGuild(id, name);
    assert store.guilds == before[id := g];
    if noneGiven {
      return NoChanges();
    }
    reply := Configure(store, id, channels, roles);
    assert before[id := g][id := g.(channels := Written(g.channels, channels), roles := Written(g.roles, roles), setupCompleted := true)]
      == before[id := g.(channels := Written(g.channels, channels), roles := Written(g.roles, roles), setupCompleted := true)];
  }

  /**
   * `execute`: creates or renames the record; refuses with 'No Changes' when
   * no option is given; otherwise writes the channels, then the roles, marks
   * the setup completed and lists one line per written option.
   */
  method Execute(
    store: GuildStore, id: string, name: string,
    gtRole: Option<string>, history: Option<string>, leagueLog: Option<string>, signRequest: Option<string>,
    offerAccept: Option<string>, staff: Option<string>, manager: Option<string>, anchor: Option<string>)
    returns (reply: Embed)
    modifies store
    ensures var channels := ChannelSlots(history, leagueLog, signRequest, offerAccept);
      var roles := RoleSlots(gtRole, staff, manager, anchor);
      && store.guilds == AfterSetup(old(store.guilds), id, name, channels, roles)
      && reply == (if GivenCount(channels) + GivenCount(roles) == 0 then NoChanges() else SetupUpdated(Summary(channels) + Summary(roles)))
  {
    var channels := ChannelSlots(history, leagueLog, signRequest, offerAccept);
    var roles := RoleSlots(gtRole, staff, manager, anchor);
    NoneGiven(gtRole, history, leagueLog, signRequest, offerAccept, staff, manager, anchor);
    SlotKinds(gtRole, history, leagueLog, signRequest, offerAccept, staff, manager, anchor);
    reply := Run(store, id, name, channels, roles,
      gtRole.None? && history.None? && leagueLog.None? && signRequest.None?
      && offerAccept.None? && staff.None? && manager.None? && anchor.None?);
  }

  lemma {:induction false} WrittenSnoc(m: map<string, string>, slots: seq<Slot>, s: Slot)
    ensures Written(m, slots + [s]) == Written(Written(m, slots), [s])
    decreases |slots|
  {
    if slots != [] {
      assert (slots + [s])[1..] == slots[1..] + [s];
      var m' := if slots[0].value.Some? then m[slots[0].key := slots[0].value.value] else m;
      WrittenSnoc(m', slots[1..], s);
    }
  }

  lemma {:induction false} SummarySnoc(slots: seq<Slot>, s: Slot)
    ensures Summary(slots + [s]) == Summary(slots) + Summary([s])
  {
    if slots == [] {
      assert slots + [s] == [s];
    } else {
      assert (slots + [s])[1..] == slots[1..] + [s];
      SummarySnoc(slots[1..], s);
    }
  }

  /** The channel options are written under four different keys, none of them 'contract' or 'awards'. */
  lemma ChannelKeys(history: Option<string>, leagueLog: Option<string>, signRequest: Option<string>, offerAccept: Option<string>)
    ensures Keys(ChannelSlots(history, leagueLog, signRequest, offerAccept)) == ["history", "league_log", "sign_request", "offer_accept"]
    ensures DistinctKeys(ChannelSlots(history, leagueLog, signRequest, offerAccept))
  {
    var c := ChannelSlots(history, leagueLog, signRequest, offerAccept);
    assert "history"[0] != "league_log"[0] && "history"[0] != "sign_request"[0] && "history"[0] != "offer_accept"[0];
    assert "league_log"[0] != "sign_request"[0] && "league_log"[0] != "offer_accept"[0] && "sign_request"[0] != "offer_accept"[0];
  }

  /** The role options are written under four different keys. */
  lemma RoleKeys(gtRole: Option<string>, staff: Option<string>, manager: Option<string>, anchor: Option<string>)
    ensures DistinctKeys(RoleSlots(gtRole, staff, manager, anchor))
  {
    assert "gt_role"[0] != "staff"[0] && "gt_role"[0] != "manager"[0] && "gt_role"[0] != "anchor"[0];
    assert "staff"[0] != "manager"[0] && "staff"[0] != "anchor"[0] && "manager"[0] != "anchor"[0];
  }

  /**
   * The written keys are distinct, so each given option lands under its own
   * key; and 'contract' and 'awards' are not among them: the command never
   * configures the channels that `/contract` and the award announcements
   * read, whatever is given.
   */
  lemma SetupLeavesContractAndAwards(
    guilds: map<string, Guild>, id: string, name: string,
    gtRole: Option<string>, history: Option<string>, leagueLog: Option<string>, signRequest: Option<string>,
    offerAccept: Option<string>, staff: Option<string>, manager: Option<string>, anchor: Option<string>, key: string)
    requires key == "contract" || key == "awards"
    ensures DistinctKeys(ChannelSlots(history, leagueLog, signRequest, offerAccept))
    ensures DistinctKeys(RoleSlots(gtRole, staff, manager, anchor))
    ensures var after := AfterSetup(guilds, id, name, ChannelSlots(history, leagueLog, signRequest, offerAccept), RoleSlots(gtRole, staff, manager, anchor));
      Configured(after[id].channels, key) <==> id in guilds && Configured(guilds[id].channels, key)
  {
    var c := ChannelSlots(history, leagueLog, signRequest, offerAccept);
    var r := RoleSlots(gtRole, staff, manager, anchor);
    ChannelKeys(history, leagueLog, signRequest, offerAccept);
    RoleKeys(gtRole, staff, manager, anchor);
    assert key[0] == 'c' || key[0] == 'a';
    assert key !in Keys(c);
    var g := Created(guilds, id, name);
    WrittenLeavesOthers(g.channels, c, key);
    var after := AfterSetup(guilds, id, name, c, r);
    if GivenCount(c) + GivenCount(r) == 0 {
      assert after[id] == g;
    } else {
      assert after[id].channels == Written(g.channels, c);
    }
    assert id in guilds ==> g.channels == guilds[id].channels;
    assert id !in guilds ==> g.channels == map[];
  }
}
