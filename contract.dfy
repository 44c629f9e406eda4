/**
 * The `/contract` command of `commands/contract.js`: at most one contract per
 * user in a guild, added and removed by a coach, and posted as an overview
 * with paid and unpaid totals.
 *
 * `amount.toLocaleString()` is locale formatting and is the parameter
 * `formatAmount`; the add takes the text it gives for the new amount,
 * `amountText`. The guild's configured channels and the channel ids the
 * client can see are parameters, as are the user names the client resolves.
 */
module Contract {
  import opened Wrappers
  import opened Text
  import opened Embeds
  import GuildData
  import opened Dispatcher

  /** A stored contract. `amount` comes from an integer option with minimum 0. */
  datatype Contract = Contract(
    userId: string,
    position: string,
    amount: nat,
    due: string,
    terms: string,
    paid: bool,
    messageId: string,
    contractedBy: string)

  /** `getPlayerContract(guildId, userId)`: the contract of that user, if any. */
  function FindContract(cs: seq<Contract>, userId: string): (r: Option<Contract>)
    ensures r.None? <==> forall i :: 0 <= i < |cs| ==> cs[i].userId != userId
    ensures r.Some? ==> r.value in cs && r.value.userId == userId
  {
    if cs == [] then None
    else if cs[0].userId == userId then Some(cs[0])
    else FindContract(cs[1..], userId)
  }

  /** One contract per user. */
  predicate OnePerUser(cs: seq<Contract>) {
    forall i, j :: 0 <= i < j < |cs| ==> cs[i].userId != cs[j].userId
  }

  /** `removeContract(guildId, userId)`: the contracts of every other user, in order. */
  function WithoutUser(cs: seq<Contract>, userId: string): (r: seq<Contract>)
    ensures |r| <= |cs|
    ensures forall i :: 0 <= i < |r| ==> r[i].userId != userId && r[i] in cs
  {
    if cs == [] then []
    else
      var last := cs[|cs| - 1];
      WithoutUser(cs[..|cs| - 1], userId) + (if last.userId == userId then [] else [last])
  }

  /** Appending a contract of a user without one keeps one contract per user. */
  lemma SnocOnePerUser(cs: seq<Contract>, c: Contract)
    requires OnePerUser(cs) && forall i :: 0 <= i < |cs| ==> cs[i].userId != c.userId
    ensures OnePerUser(cs + [c])
  {
  }

  /** Removal keeps one contract per user. */
  lemma {:induction false} WithoutUserOnePerUser(cs: seq<Contract>, userId: string)
    requires OnePerUser(cs)
    ensures OnePerUser(WithoutUser(cs, userId))
  {
    if cs != [] {
      var init, last := cs[..|cs| - 1], cs[|cs| - 1];
      assert OnePerUser(init);
      WithoutUserOnePerUser(init, userId);
      var w := WithoutUser(init, userId);
      if last.userId != userId {
        forall i | 0 <= i < |w| ensures w[i].userId != last.userId {
          var k :| 0 <= k < |init| && init[k] == w[i];
          assert cs[k] == init[k];
        }
        SnocOnePerUser(w, last);
      }
    }
  }

  /** Removal drops that user's contract and no other: every other user is found as before. */
  lemma {:induction false} WithoutUserKeepsOthers(cs: seq<Contract>, userId: string, other: string)
    requires other != userId
    ensures FindContract(WithoutUser(cs, userId), other) == FindContract(cs, other)
  {
    if cs != [] {
      var init, last := cs[..|cs| - 1], cs[|cs| - 1];
      assert cs == init + [last];
      WithoutUserKeepsOthers(init, userId, other);
      FindAppend(init, last, other);
      var w := WithoutUser(init, userId);
      if last.userId != userId {
        assert WithoutUser(cs, userId) == w + [last];
        FindAppend(w, last, other);
      } else {
        assert WithoutUser(cs, userId) == w;
      }
    }
  }

  /** Looking a user up after an appended contract. */
  lemma {:induction false} FindAppend(cs: seq<Contract>, c: Contract, userId: string)
    ensures FindContract(cs + [c], userId) == if FindContract(cs, userId).Some? then FindContract(cs, userId)
      else if c.userId == userId then Some(c) else None
  {
    if cs != [] {
      assert (cs + [c])[1..] == cs[1..] + [c];
      FindAppend(cs[1..], c, userId);
    }
  }

  // ---------------------------------------------------------------------------
  // Replies and the posted contract
  // ---------------------------------------------------------------------------

  const DefaultTerms := "Standard player contract"
  const ContractColor := 0xFFD700

  function CoachDenied(): Embed {
    ErrorEmbed("Permission Denied", "You need Coach role or higher!")
  }

  function SetupRequired(): Embed {
    ErrorEmbed("Setup Required", "Please run `/setup` first to configure the contract channel!")
  }

  function ChannelNotFound(): Embed {
    ErrorEmbed("Channel Not Found", "Contract channel no longer exists. Please run `/setup` again!")
  }

  function ContractExists(userId: string): Embed {
    ErrorEmbed("Contract Exists", Mention(userId) + " already has an active contract!\n\nUse `/contract remove` first to create a new one.")
  }

  /** The success reply of an add. */
  function ContractCreated(userId: string, channelId: string, position: string, amountText: string, due: string): Embed {
    SuccessEmbed("\U{2705} Contract Created",
      "Contract for " + Mention(userId) + " has been posted to <#" + channelId + ">!\n\n**Position:** " + position
      + "\n**Amount:** $" + amountText + "\n**Due:** " + due)
  }

  /** The announcement posted in the contract channel. */
  function ContractEmbed(c: Contract, amountText: string, guildName: string): (e: Embed)
    ensures |e.fields| == 8 && e.fields[5] == Field("\U{1F4B3} Paid", "\U{274C} **NO**", true)
  {
    Embed(
      Some("\U{1F4DC} PLAYER CONTRACT"),
      Some("**" + guildName + "** has contracted a new player!"),
      Some(ContractColor),
      [ Field("\U{1F464} Player", Mention(c.userId), true),
        Field("\U{1F3AE} Position", c.position, true),
        Field("\U{200B}", "\U{200B}", true),
        Field("\U{1F4B0} Amount", "$" + amountText, true),
        Field("\U{1F4C5} Due Date", c.due, true),
        Field("\U{1F4B3} Paid", "\U{274C} **NO**", true),
        Field("\U{1F4CB} Terms", c.terms, false),
        Field("\U{270D}\U{FE0F} Contracted By", Mention(c.contractedBy), false) ],
      Some("Contract \U{2022} " + guildName),
      true)
  }

  /** The message text posted with the announcement. */
  function Welcome(userId: string): string {
    "\U{1F389} **NEW CONTRACT!** Welcome " + Mention(userId) + " to the team!"
  }

  function NoContractFor(userId: string): Embed {
    ErrorEmbed("Not Found", Mention(userId) + " doesn't have an active contract!")
  }

  function ContractRemoved(c: Contract, amountText: string): Embed {
    SuccessEmbed("\U{1F5D1}\U{FE0F} Contract Removed",
      "Removed contract for " + Mention(c.userId) + "\n\n**Position:** " + c.position + "\n**Amount:** $" + amountText)
  }

  // ---------------------------------------------------------------------------
  // The overview
  // ---------------------------------------------------------------------------

  /** `contracts.filter(c => c.paid === want)`, in order. */
  function WithPaid(cs: seq<Contract>, want: bool): (r: seq<Contract>)
    ensures |r| <= |cs|
    ensures forall i :: 0 <= i < |r| ==> r[i].paid == want
  {
    if cs == [] then []
    else
      var last := cs[|cs| - 1];
      WithPaid(cs[..|cs| - 1], want) + (if last.paid == want then [last] else [])
  }

  /**
   * The selection keeps input order: it distributes over concatenation, and a
   * single contract is kept exactly when its flag is the one wanted.
   */
  lemma {:induction false} WithPaidAppend(a: seq<Contract>, b: seq<Contract>, want: bool)
    ensures WithPaid(a + b, want) == WithPaid(a, want) + WithPaid(b, want)
    ensures |b| == 1 ==> WithPaid(b, want) == if b[0].paid == want then b else []
  {
    if b != [] {
      var init := b[..|b| - 1];
      assert (a + b)[..|a + b| - 1] == a + init;
      assert (a + b)[|a + b| - 1] == b[|b| - 1];
      WithPaidAppend(a, init, want);
    } else {
      assert a + b == a;
    }
  }

  /** The filter step: 'unpaid' and 'paid' select by flag, any other value keeps every contract. */
  function Filtered(cs: seq<Contract>, filter: string): (r: seq<Contract>)
    ensures filter == "unpaid" ==> r == WithPaid(cs, false)
    ensures filter == "paid" ==> r == WithPaid(cs, true)
    ensures filter != "unpaid" && filter != "paid" ==> r == cs
  {
    if filter == "unpaid" then WithPaid(cs, false)
    else if filter == "paid" then WithPaid(cs, true)
    else cs
  }

  /** The paid and the unpaid selections split the contracts: every one lands in exactly one. */
  lemma {:induction false} PaidSplit(cs: seq<Contract>)
    ensures multiset(WithPaid(cs, true)) + multiset(WithPaid(cs, false)) == multiset(cs)
    ensures |WithPaid(cs, true)| + |WithPaid(cs, false)| == |cs|
  {
    if cs != [] {
      var init, last := cs[..|cs| - 1], cs[|cs| - 1];
      PaidSplit(init);
      assert cs == init + [last];
      var p, u := WithPaid(init, true), WithPaid(init, false);
      assert multiset(cs) == multiset(init) + multiset{last};
      if last.paid {
        assert WithPaid(cs, true) == p + [last] && WithPaid(cs, false) == u + [];
        assert multiset(p + [last]) == multiset(p) + multiset{last};
      } else {
        assert WithPaid(cs, true) == p + [] && WithPaid(cs, false) == u + [last];
        assert multiset(u + [last]) == multiset(u) + multiset{last};
      }
    }
  }

  /** The lines for one listed contract. */
  function ContractLines(c: Contract, username: string, formatAmount: int -> string): string {
    (if c.paid then "\U{1F49A}" else "\U{1F4B0}") + " **" + username + "** - " + c.position + "\n"
    + "\U{2514} Amount: $" + formatAmount(c.amount) + " | Due: " + c.due + " | "
    + (if c.paid then "\U{2705} PAID" else "\U{274C} UNPAID") + "\n\n"
  }

  /** The overview text: the lines of each contract whose user resolves, in order. */
  function ListText(cs: seq<Contract>, names: map<string, string>, formatAmount: int -> string): string {
    if cs == [] then ""
    else
      var last := cs[|cs| - 1];
      var lines := if last.userId in names then ContractLines(last, names[last.userId], formatAmount) else "";
      ListText(cs[..|cs| - 1], names, formatAmount) + lines
  }

  /** The amounts of the listed contracts with paid flag `paid`. */
  function Total(cs: seq<Contract>, names: map<string, string>, paid: bool): nat {
    if cs == [] then 0
    else
      var last := cs[|cs| - 1];
      Total(cs[..|cs| - 1], names, paid) + (if last.userId in names && last.paid == paid then last.amount else 0)
  }

  /** The amounts of all listed contracts. */
  function ListedSum(cs: seq<Contract>, names: map<string, string>): nat {
    if cs == [] then 0
    else
      var last := cs[|cs| - 1];
      ListedSum(cs[..|cs| - 1], names) + (if last.userId in names then last.amount else 0)
  }

  /** Each listed contract adds its amount to exactly one of the two totals. */
  lemma {:induction false} TotalsSplitListed(cs: seq<Contract>, names: map<string, string>)
    ensures Total(cs, names, true) + Total(cs, names, false) == ListedSum(cs, names)
  {
    if cs != [] {
      TotalsSplitListed(cs[..|cs| - 1], names);
    }
  }

  /** A selection by flag has nothing in the other total. */
  lemma {:induction false} SelectionHasOneTotal(cs: seq<Contract>, names: map<string, string>, want: bool)
    ensures Total(WithPaid(cs, want), names, !want) == 0
  {
    if cs != [] {
      var init, last := cs[..|cs| - 1], cs[|cs| - 1];
      SelectionHasOneTotal(init, names, want);
      var w := WithPaid(init, want);
      if last.paid == want {
        var ext := w + [last];
        assert WithPaid(cs, want) == ext;
        assert ext[..|ext| - 1] == w && ext[|ext| - 1] == last;
        assert Total(ext, names, !want) == Total(w, names, !want);
      } else {
        assert WithPaid(cs, want) == w;
      }
    }
  }

  /** Contracts whose user cannot be resolved add no text and nothing to either total. */
  lemma {:induction false} UnresolvedAddNothing(cs: seq<Contract>, names: map<string, string>, formatAmount: int -> string)
    requires forall i :: 0 <= i < |cs| ==> cs[i].userId !in names
    ensures ListText(cs, names, formatAmount) == ""
    ensures Total(cs, names, true) == 0 && Total(cs, names, false) == 0
  {
    if cs != [] {
      UnresolvedAddNothing(cs[..|cs| - 1], names, formatAmount);
    }
  }

  /** The overview title: the filter's name, and JavaScript's 'undefined' for a value outside the choices. */
  function FilterText(filter: string): string {
    if filter == "all" then "All Contracts"
    else if filter == "unpaid" then "Unpaid Contracts"
    else if filter == "paid" then "Paid Contracts"
    else "undefined"
  }

  function NoContracts(): Embed {
    ErrorEmbed("No Contracts", "No contracts found!\n\nUse `/contract add` to create player contracts.")
  }

  function NoFilteredContracts(filter: string): Embed {
    ErrorEmbed("No Contracts", "No " + filter + " contracts found!")
  }

  /** The overview embed; 'Total Contracts' counts every filtered contract, listed or not. */
  function Overview(filter: string, text: string, unpaid: nat, paid: nat, count: nat, guildName: string, formatAmount: int -> string): Embed {
    Embed(
      Some("\U{1F4CB} " + FilterText(filter)),
      Some(if text == "" then "No contracts found" else text),
      Some(DefaultColor),
      [ Field("\U{1F4B0} Total Unpaid", "$" + formatAmount(unpaid), true),
        Field("\U{1F49A} Total Paid", "$" + formatAmount(paid), true),
        Field("\U{1F4CA} Total Contracts", NatToString(count), true) ],
      Some(guildName + " \U{2022} Contract Overview"),
      true)
  }

  // ---------------------------------------------------------------------------
  // The handlers as written
  // ---------------------------------------------------------------------------

  /**
   * `handleAdd` and `handleRemove` as written: `hasCoachPerms` is imported
   * from the permissions module, which does not export it, so the first call
   * throws before any reply. The dispatcher then answers 'Command failed.' and
   * the contracts are unchanged, whoever calls and whatever the options.
   */
  function AddOrRemoveAsWritten(contracts: seq<Contract>): (r: (seq<Contract>, string))
    ensures r.0 == contracts && r.1 == CommandFailedText
  {
    (contracts, CommandFailedText)
  }

  /**
   * An administrator adding a contract for a new player in a guild with a
   * working contract channel still stores nothing.
   */
  lemma AddAsWrittenStoresNothing()
    ensures var cs: seq<Contract> := [];
      var r := AddOrRemoveAsWritten(cs);
      FindContract(r.0, "42").None? && r.1 != ContractCreated("42", "7", "QB", "100", "Feb 15").title.value
  {
    var r := AddOrRemoveAsWritten([]);
    assert r.1[2] == 'C';
    assert ContractCreated("42", "7", "QB", "100", "Feb 15").title.value[2] == '\U{2705}';
  }

  // ---------------------------------------------------------------------------
  // The store and the handlers, with the coach check a parameter
  // ---------------------------------------------------------------------------

  /** The contracts of one guild, in the order they were added. */
  class ContractStore {
    var contracts: seq<Contract>

    ghost predicate Valid()
      reads this
    {
      OnePerUser(contracts)
    }

    constructor ()
      ensures contracts == [] && Valid()
    {
      contracts := [];
    }

    /**
     * `handleAdd`: refuses a caller without coach permission, then a guild
     * without a configured contract channel, then a channel that no longer
     * exists, and only then a user who already has a contract; otherwise
     * posts the announcement and stores the contract unpaid, with the
     * position upper-cased and the default terms when none are given.
     */
    method Add(canCoach: bool, channels: map<string, string>, visibleChannels: set<string>,
               userId: string, position: string, amount: nat, due: string, terms: Option<string>,
               messageId: string, callerId: string, guildName: string, amountText: string)
      returns (reply: Embed, posted: Option<(string, Embed)>)
      requires Valid()
      modifies this
      ensures Valid()
      ensures
        if !canCoach then reply == CoachDenied() && posted.None? && contracts == old(contracts)
        else if !GuildData.Configured(channels, "contract") then reply == SetupRequired() && posted.None? && contracts == old(contracts)
        else if channels["contract"] !in visibleChannels then reply == ChannelNotFound() && posted.None? && contracts == old(contracts)
        else if FindContract(old(contracts), userId).Some? then reply == ContractExists(userId) && posted.None? && contracts == old(contracts)
        else
          var c := Contract(userId, ToUpper(position), amount, due, OrDefault(terms, DefaultTerms), false, messageId, callerId);
          && contracts == old(contracts) + [c]
          && posted == Some((Welcome(userId), ContractEmbed(c, amountText, guildName)))
          && reply == ContractCreated(userId, channels["contract"], c.position, amountText, due)
    {
      if !canCoach {
        return CoachDenied(), None;
      }
      var upper := ToUpper(position);
      var chosenTerms := OrDefault(terms, DefaultTerms);
      if !GuildData.Configured(channels, "contract") {
        return SetupRequired(), None;
      }
      var channelId := channels["contract"];
      if channelId !in visibleChannels {
        return ChannelNotFound(), None;
      }
      var c := Contract(userId, upper, amount, due, chosenTerms, false, messageId, callerId);
      reply, posted := Append(c, channelId, amountText, guildName);
    }

    /**
     * The last steps of `handleAdd`: refuse a user who already has a
     * contract; otherwise announce the contract, store it (`addContract`)
     * and confirm.
     */
    method Append(c: Contract, channelId: string, amountText: string, guildName: string)
      returns (reply: Embed, posted: Option<(string, Embed)>)
      requires Valid()
      modifies this
      ensures Valid()
      ensures FindContract(old(contracts), c.userId).Some? ==>
        reply == ContractExists(c.userId) && posted.None? && contracts == old(contracts)
      ensures FindContract(old(contracts), c.userId).None? ==>
        && contracts == old(contracts) + [c]
        && posted == Some((Welcome(c.userId), ContractEmbed(c, amountText, guildName)))
        && reply == ContractCreated(c.userId, channelId, c.position, amountText, c.due)
    {
      if FindContract(contracts, c.userId).Some? {
        return ContractExists(c.userId), None;
      }
      posted := Some((Welcome(c.userId), ContractEmbed(c, amountText, guildName)));
      SnocOnePerUser(contracts, c);
      contracts := contracts + [c];
      reply := ContractCreated(c.userId, channelId, c.position, amountText, c.due);
    }

    /** `handleRemove`: refuses a user without a contract, otherwise removes exactly that user's record. */
    method Remove(canCoach: bool, userId: string, formatAmount: int -> string) returns (reply: Embed)
      requires Valid()
      modifies this
      ensures Valid()
      ensures !canCoach ==> reply == CoachDenied() && contracts == old(contracts)
      ensures canCoach && FindContract(old(contracts), userId).None? ==>
        reply == NoContractFor(userId) && contracts == old(contracts)
      ensures canCoach && FindContract(old(contracts), userId).Some? ==>
        var c := FindContract(old(contracts), userId).value;
        && contracts == WithoutUser(old(contracts), userId)
        && FindContract(contracts, userId).None?
        && (forall u :: u != userId ==> FindContract(contracts, u) == FindContract(old(contracts), u))
        && reply == ContractRemoved(c, formatAmount(c.amount))
    {
      if !canCoach {
        return CoachDenied();
      }
      var found := FindContract(contracts, userId);
      if found.None? {
        return NoContractFor(userId);
      }
      var c := found.value;
      forall u | u != userId
        ensures FindContract(WithoutUser(contracts, userId), u) == FindContract(contracts, u)
      {
        WithoutUserKeepsOthers(contracts, userId, u);
      }
      WithoutUserOnePerUser(contracts, userId);
      contracts := WithoutUser(contracts, userId);
      reply := ContractRemoved(c, formatAmount(c.amount));
    }

    /**
     * `handlePost`: the filter defaults to 'all'; no contract at all, or none
     * left after filtering, is refused; otherwise one loop lists each
     * resolvable contract and adds its amount to the paid or the unpaid total.
     */
    method Post(filterOption: Option<string>, names: map<string, string>, guildName: string, formatAmount: int -> string)
      returns (reply: Embed)
      ensures var filter := OrDefault(filterOption, "all");
        var fs := Filtered(contracts, filter);
        && (contracts == [] ==> reply == NoContracts())
        && (contracts != [] && fs == [] ==> reply == NoFilteredContracts(filter))
        && (fs != [] ==> reply == Overview(filter, ListText(fs, names, formatAmount),
              Total(fs, names, false), Total(fs, names, true), |fs|, guildName, formatAmount))
    {
      var filter := OrDefault(filterOption, "all");
      if |contracts| == 0 {
        return NoContracts();
      }
      var fs := Filtered(contracts, filter);
      if |fs| == 0 {
        return NoFilteredContracts(filter);
      }
      var text, totalUnpaid, totalPaid := Tally(fs, names, formatAmount);
      reply := Overview(filter, text, totalUnpaid, totalPaid, |fs|, guildName, formatAmount);
    }

    /** The loop of `handlePost`: the overview text and the unpaid and paid totals of the listed contracts. */
    static method Tally(fs: seq<Contract>, names: map<string, string>, formatAmount: int -> string)
      returns (text: string, totalUnpaid: nat, totalPaid: nat)
      ensures text == ListText(fs, names, formatAmount)
      ensures totalUnpaid == Total(fs, names, false) && totalPaid == Total(fs, names, true)
    {
      text := "";
      totalUnpaid, totalPaid := 0, 0;
      var i := 0;
      while i < |fs|
        invariant 0 <= i <= |fs|
        invariant text == ListText(fs[..i], names, formatAmount)
        invariant totalUnpaid == Total(fs[..i], names, false)
        invariant totalPaid == Total(fs[..i], names, true)
      {
        var c := fs[i];
        assert fs[..i + 1][..i] == fs[..i] && fs[..i + 1][i] == c;
        if c.userId in names {
          text := text + ContractLines(c, names[c.userId], formatAmount);
          if c.paid {
            totalPaid := totalPaid + c.amount;
          } else {
            totalUnpaid := totalUnpaid + c.amount;
          }
        }
        i := i + 1;
      }
      assert fs[..i] == fs;
    }
  }
}
