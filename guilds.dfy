/**
 * The owner-only `/guilds` command of `commands/guilds.js`: every guild the bot
 * is in, largest first, ten to a page. The bot's guild cache is the parameter
 * `guilds`, in cache order; what the Discord calls made for a guild produced
 * (its invite, or a failure while looking at it) is recorded in that guild's
 * entry. `toLocaleString` is the parameter `formatCount`.
 */
module Guilds {
  import opened Wrappers
  import opened Text
  import opened Embeds
  import Permissions
  import Sorting

  /** Guilds per page. */
  const PageSize := 10

  /** What came of looking for an invite: no text channel allowing one, an invite code, or a failed creation. */
  datatype InviteAttempt = NoChannel | Made(code: string) | Failed

  /**
   * A cached guild. `skipped` records that processing the guild threw (for
   * instance while reading a channel's permissions), so the guild is left out
   * of the listing; its members still count in the total.
   */
  datatype CachedGuild = CachedGuild(id: string, name: string, memberCount: nat, ownerId: string, invite: InviteAttempt, skipped: bool)

  /** One listed guild. */
  datatype Entry = Entry(name: string, id: string, members: nat, owner: string, invite: string)

  /** The invite text of a guild. */
  function InviteLink(a: InviteAttempt): (r: string)
  {
    match a
    case NoChannel => "No invite available"
    case Made(code) => "https://discord.gg/" + code
    case Failed => "Cannot create invite"
  }

  function EntryOf(g: CachedGuild): Entry {
    Entry(g.name, g.id, g.memberCount, g.ownerId, InviteLink(g.invite))
  }

  /** The listing before sorting: an entry per guild that was not skipped, in cache order. */
  function Entries(gs: seq<CachedGuild>): (r: seq<Entry>)
    ensures |r| <= |gs|
  {
    if gs == [] then []
    else Entries(gs[..|gs| - 1]) + (if gs[|gs| - 1].skipped then [] else [EntryOf(gs[|gs| - 1])])
  }

  /** Every guild that was not skipped is listed, and nothing else is. */
  lemma {:induction false} EntriesListProcessed(gs: seq<CachedGuild>)
    ensures forall g :: g in gs && !g.skipped ==> EntryOf(g) in Entries(gs)
    ensures forall e :: e in Entries(gs) ==> exists g :: g in gs && !g.skipped && e == EntryOf(g)
  {
    if gs != [] {
      var init, last := gs[..|gs| - 1], gs[|gs| - 1];
      EntriesListProcessed(init);
      assert gs == init + [last];
      forall e | e in Entries(gs) ensures exists g :: g in gs && !g.skipped && e == EntryOf(g) {
        if e !in Entries(init) {
          assert e == EntryOf(last);
        } else {
          var g :| g in init && !g.skipped && e == EntryOf(g);
          assert g in gs;
        }
      }
    }
  }

  /** The members of every cached guild, skipped or not. */
  function TotalMembers(gs: seq<CachedGuild>): nat {
    if gs == [] then 0 else TotalMembers(gs[..|gs| - 1]) + gs[|gs| - 1].memberCount
  }

  /** The members of the listed guilds. */
  function ListedMembers(es: seq<Entry>): nat {
    if es == [] then 0 else ListedMembers(es[..|es| - 1]) + es[|es| - 1].members
  }

  /** The members of the skipped guilds. */
  function SkippedMembers(gs: seq<CachedGuild>): nat {
    if gs == [] then 0
    else SkippedMembers(gs[..|gs| - 1]) + (if gs[|gs| - 1].skipped then gs[|gs| - 1].memberCount else 0)
  }

  /** The total in the page header counts the listed guilds and the skipped ones alike. */
  lemma {:induction false} TotalCountsSkipped(gs: seq<CachedGuild>)
    ensures TotalMembers(gs) == ListedMembers(Entries(gs)) + SkippedMembers(gs)
  {
    if gs != [] {
      var init, last := gs[..|gs| - 1], gs[|gs| - 1];
      TotalCountsSkipped(init);
      if !last.skipped {
        var es := Entries(init) + [EntryOf(last)];
        assert Entries(gs) == es;
        assert es[..|es| - 1] == Entries(init);
        assert ListedMembers(es) == ListedMembers(Entries(init)) + last.memberCount;
      } else {
        assert Entries(gs) == Entries(init) + [];
        assert Entries(init) + [] == Entries(init);
      }
    }
  }

  /** The sort key: larger guilds first. */
  function DescendingMembers(e: Entry): int {
    -(e.members as int)
  }

  // ---------------------------------------------------------------------------
  // Pages
  // ---------------------------------------------------------------------------

  /** Consecutive slices of `size` elements, the last one possibly shorter. */
  function Chunks<T>(s: seq<T>, size: nat): seq<seq<T>>
    requires size > 0
    decreases |s|
  {
    if |s| == 0 then []
    else if |s| <= size then [s]
    else [s[..size]] + Chunks(s[size..], size)
  }

  function Flatten<T>(ss: seq<seq<T>>): seq<T> {
    if ss == [] then [] else ss[0] + Flatten(ss[1..])
  }

  /** The pages put back together are the list they were cut from. */
  lemma {:induction false} ChunksFlatten<T>(s: seq<T>, size: nat)
    requires size > 0
    ensures Flatten(Chunks(s, size)) == s
    decreases |s|
  {
    if |s| == 0 {
    } else if |s| <= size {
      assert [s][1..] == [];
    } else {
      ChunksFlatten(s[size..], size);
      var r := Chunks(s, size);
      assert r[1..] == Chunks(s[size..], size);
      assert s == s[..size] + s[size..];
    }
  }

  /**
   * Every page holds between one and `size` elements, every page but the last
   * exactly `size`, and the number of pages is `|s| / size` rounded up.
   */
  lemma {:induction false} ChunksShape<T>(s: seq<T>, size: nat)
    requires size > 0
    ensures forall c :: c in Chunks(s, size) ==> 0 < |c| <= size
    ensures forall k :: 0 <= k < |Chunks(s, size)| - 1 ==> |Chunks(s, size)[k]| == size
    ensures (|Chunks(s, size)| - 1) * size < |s| <= |Chunks(s, size)| * size
    decreases |s|
  {
    if |s| > size {
      var rest := Chunks(s[size..], size);
      ChunksShape(s[size..], size);
      var r := Chunks(s, size);
      assert r == [s[..size]] + rest;
      assert (|r| - 1) * size == |rest| * size;
      assert (|rest| - 1) * size == |rest| * size - size;
      assert |r| * size == |rest| * size + size;
      forall k | 0 <= k < |r| - 1 ensures |r[k]| == size {
        if k > 0 {
          assert r[k] == rest[k - 1];
        }
      }
    }
  }

  /** The field listing one guild. */
  function GuildField(e: Entry, formatCount: nat -> string): Field {
    Field("\U{1F3F0} " + e.name,
      "**Guild ID:** `" + e.id + "`\n**Members:** " + formatCount(e.members)
        + "\n**Owner ID:** `" + e.owner + "`\n**Invite:** " + e.invite,
      false)
  }

  /** Page `index` (from 0) of `count`. */
  function Page(chunk: seq<Entry>, index: nat, count: nat, totalGuilds: nat, totalMembers: nat, formatCount: nat -> string): Embed {
    Embed(
      Some("\U{1F4CA} Bot Guilds (" + NatToString(index + 1) + "/" + NatToString(count) + ")"),
      Some("**Total Guilds:** " + NatToString(totalGuilds) + "\n**Total Members:** " + NatToString(totalMembers)),
      Some(DefaultColor),
      seq(|chunk|, i requires 0 <= i < |chunk| => GuildField(chunk[i], formatCount)),
      Some("LockerRoom | Page " + NatToString(index + 1) + " of " + NatToString(count)),
      true)
  }

  function Pages(chunks: seq<seq<Entry>>, totalGuilds: nat, totalMembers: nat, formatCount: nat -> string): seq<Embed> {
    seq(|chunks|, k requires 0 <= k < |chunks| => Page(chunks[k], k, |chunks|, totalGuilds, totalMembers, formatCount))
  }

  /** The guilds in the order they are listed, before paging. */
  function Listing(gs: seq<CachedGuild>): seq<Entry> {
    Sorting.SortBy(Entries(gs), DescendingMembers)
  }

  /**
   * The pages list every guild that was not skipped exactly once, the largest
   * first, guilds of equal size in cache order; there are `⌈n / 10⌉` of
   * them for `n` listed guilds, each with one to ten fields.
   */
  lemma ListingShape(gs: seq<CachedGuild>)
    ensures Flatten(Chunks(Listing(gs), PageSize)) == Listing(gs)
    ensures multiset(Listing(gs)) == multiset(Entries(gs))
    ensures forall i, j :: 0 <= i < j < |Listing(gs)| ==> Listing(gs)[i].members >= Listing(gs)[j].members
    ensures forall k: int :: Sorting.WithKey(Listing(gs), DescendingMembers, k) == Sorting.WithKey(Entries(gs), DescendingMembers, k)
    ensures var n, p := |Entries(gs)|, |Chunks(Listing(gs), PageSize)|; (p - 1) * PageSize < n <= p * PageSize
    ensures forall c :: c in Chunks(Listing(gs), PageSize) ==> 0 < |c| <= PageSize
  {
    var l := Listing(gs);
    ChunksFlatten(l, PageSize);
    Sorting.SortByPermutes(Entries(gs), DescendingMembers);
    Sorting.SortBySorted(Entries(gs), DescendingMembers);
    forall i, j | 0 <= i < j < |l| ensures l[i].members >= l[j].members {
      assert DescendingMembers(l[i]) <= DescendingMembers(l[j]);
    }
    forall k: int ensures Sorting.WithKey(l, DescendingMembers, k) == Sorting.WithKey(Entries(gs), DescendingMembers, k) {
      Sorting.SortByStable(Entries(gs), DescendingMembers, k);
    }
    ChunksShape(l, PageSize);
  }

  // ---------------------------------------------------------------------------
  // The command
  // ---------------------------------------------------------------------------

  /** The reply: a refusal, or the pages (the first edits the deferred reply, the rest follow up). */
  datatype Reply = Refused(embed: Embed) | Listed(pages: seq<Embed>)

  function OwnerOnly(): Embed {
    ErrorEmbed("Permission Denied", "This command is owner-only.")
  }

  function NoGuilds(): Embed {
    ErrorEmbed("No Guilds", "The bot is not in any guilds.")
  }

  /** The first loop: an entry per guild processed without error. */
  method CollectEntries(guilds: seq<CachedGuild>) returns (list: seq<Entry>)
    ensures list == Entries(guilds)
  {
    list := [];
    for i := 0 to |guilds|
      invariant list == Entries(guilds[..i])
    {
      assert guilds[..i + 1][..i] == guilds[..i];
      var g := guilds[i];
      if !g.skipped {
        list := list + [Entry(g.name, g.id, g.memberCount, g.ownerId, InviteLink(g.invite))];
      }
    }
    assert guilds[..|guilds|] == guilds;
  }

  /** The second loop: slices of ten starting at 0, 10, 20, ... */
  method ChunkList(list: seq<Entry>) returns (chunks: seq<seq<Entry>>)
    ensures chunks == Chunks(list, PageSize)
  {
    chunks := [];
    var i := 0;
    while i < |list|
      invariant i <= |list| ==> chunks + Chunks(list[i..], PageSize) == Chunks(list, PageSize)
      invariant i > |list| ==> chunks == Chunks(list, PageSize)
      decreases |list| - i
    {
      var rest := list[i..];
      if |list| <= i + PageSize {
        assert list[i..|list|] == rest;
        chunks := chunks + [rest];
      } else {
        assert rest[..PageSize] == list[i..i + PageSize];
        assert rest[PageSize..] == list[i + PageSize..];
        chunks := chunks + [list[i..i + PageSize]];
      }
      i := i + PageSize;
    }
    if i <= |list| {
      assert list[i..] == [];
    }
  }

  /** `/guilds` run by `callerId`. */
  method Execute(callerId: string, ownerId: Option<string>, guilds: seq<CachedGuild>, formatCount: nat -> string) returns (reply: Reply)
    ensures !Permissions.IsOwner(callerId, ownerId) ==> reply == Refused(OwnerOnly())
    ensures Permissions.IsOwner(callerId, ownerId) && guilds == [] ==> reply == Refused(NoGuilds())
    ensures (Permissions.IsOwner(callerId, ownerId) && guilds != [] ==>
      reply == Listed(Pages(Chunks(Listing(guilds), PageSize), |guilds|, TotalMembers(guilds), formatCount)))
  {
    if !Permissions.IsOwner(callerId, ownerId) {
      return Refused(OwnerOnly());
    }
    if |guilds| == 0 {
      return Refused(NoGuilds());
    }
    var list := CollectEntries(guilds);
    var a := new Entry[|list|](i requires 0 <= i < |list| => list[i]);
    assert a[..] == list;
    Sorting.InsertionSortBy(a, DescendingMembers);
    var chunks := ChunkList(a[..]);
    var total := SumMembers(guilds);
    var pages := BuildPages(chunks, |guilds|, total, formatCount);
    reply := Listed(pages);
  }

  /** The `map` over the chunks: one embed per page. */
  method BuildPages(chunks: seq<seq<Entry>>, totalGuilds: nat, totalMembers: nat, formatCount: nat -> string) returns (pages: seq<Embed>)
    ensures pages == Pages(chunks, totalGuilds, totalMembers, formatCount)
  {
    pages := [];
    for k := 0 to |chunks|
      invariant |pages| == k
      invariant forall j :: 0 <= j < k ==> pages[j] == Page(chunks[j], j, |chunks|, totalGuilds, totalMembers, formatCount)
    {
      var fields := [];
      for f := 0 to |chunks[k]|
        invariant fields == seq(f, i requires 0 <= i < f => GuildField(chunks[k][i], formatCount))
      {
        fields := fields + [GuildField(chunks[k][f], formatCount)];
      }
      pages := pages + [Embed(
        Some("\U{1F4CA} Bot Guilds (" + NatToString(k + 1) + "/" + NatToString(|chunks|) + ")"),
        Some("**Total Guilds:** " + NatToString(totalGuilds) + "\n**Total Members:** " + NatToString(totalMembers)),
        Some(DefaultColor),
        fields,
        Some("LockerRoom | Page " + NatToString(k + 1) + " of " + NatToString(|chunks|)),
        true)];
    }
  }

  /** The `reduce` over the whole cache. */
  method SumMembers(guilds: seq<CachedGuild>) returns (total: nat)
    ensures total == TotalMembers(guilds)
  {
    total := 0;
    for i := 0 to |guilds|
      invariant total == TotalMembers(guilds[..i])
    {
      assert guilds[..i + 1][..i] == guilds[..i];
      total := total + guilds[i].memberCount;
    }
    assert guilds[..|guilds|] == guilds;
  }
}
