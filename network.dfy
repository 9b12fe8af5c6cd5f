/** The `/network` command of `src/bot/commands/network.js`: without an argument
    it lists the networks with the user's current one checked; with one it
    upper-cases the argument and, when that names a network, stores it as the
    user's preferred network. */
module NetworkCommand {
  import opened Wrappers
  import opened Text
  import Users
  import Constants
  import Chat

  /** The network the user is on. */
  function CurrentNetwork(user: Users.UserRow): string {
    Chat.NetworkOf(user.preferredNetwork)
  }

  /** A preference `/network` can have written: none, or a key of `NETWORKS`. */
  predicate WrittenPreference(user: Users.UserRow) {
    user.preferredNetwork.None? || user.preferredNetwork.value in Constants.NetworkNames
  }

  datatype NetworkOutcome =
    | NotRegistered
    | Showing(current: string)
    | InvalidNetwork(requested: string)
    | Switched(network: string)
      /** The stored preference names no network, so reading its `NAME` throws and
          the catch replies. */
    | Failed

  /** What `handleNetworkCommand` does for the user row found (if any) and the
      words after the command. */
  function Decide(user: Option<Users.UserRow>, args: seq<string>): (o: NetworkOutcome)
    ensures o.NotRegistered? <==> user.None?
    ensures o.Switched? ==> |args| > 0 && o.network == ToUpper(args[0]) && o.network in Constants.NetworkNames
    ensures o.InvalidNetwork? <==> user.Some? && |args| > 0 && ToUpper(args[0]) !in Constants.NetworkNames
    ensures o.Showing? ==> |args| == 0 && o.current in Constants.NetworkNames
    ensures o.Failed? ==> |args| == 0 && user.Some? && !WrittenPreference(user.value)
    ensures user.Some? && |args| == 0 && WrittenPreference(user.value) ==> o == Showing(CurrentNetwork(user.value))
  {
    match user
    case None => NotRegistered
    case Some(u) =>
      if |args| == 0 then
        var current := CurrentNetwork(u);
        if Constants.Networks(current).Some? then Showing(current) else Failed
      else
        var name := ToUpper(args[0]);
        if Constants.Networks(name).Some? then Switched(name) else InvalidNetwork(name)
  }

  /** The argument is case-insensitive: upper-casing it first changes nothing. */
  lemma ArgumentCaseInsensitive(user: Option<Users.UserRow>, args: seq<string>)
    requires |args| > 0
    ensures Decide(user, [ToUpper(args[0])] + args[1..]) == Decide(user, args)
  {
    UpperIdempotent(args[0]);
  }

  lemma UpperIdempotent(s: string)
    ensures ToUpper(ToUpper(s)) == ToUpper(s)
  {
    var u := ToUpper(s);
    forall i | 0 <= i < |s|
      ensures ToUpper(u)[i] == u[i]
    {
      assert u[i] == UpperChar(s[i]);
    }
  }

  /** `handleNetworkCommand` for the user `id` and the message text `text`; only a
      switch writes the table, and it writes a key of `NETWORKS`. */
  method HandleNetwork(users: Users.UserTable, id: string, text: string) returns (o: NetworkOutcome)
    requires users.Valid()
    modifies users
    ensures users.Valid()
    ensures o == Decide(Users.FindById(old(users.rows), id), Chat.Args(text))
    ensures o.Switched? ==> users.rows == Users.SetPreferredNetwork(old(users.rows), id, Some(o.network))
    ensures !o.Switched? ==> users.rows == old(users.rows)
  {
    var args := Chat.Args(text);
    var user := Users.FindById(users.rows, id);
    if user.None? {
      return NotRegistered;
    }
    if |args| == 0 {
      var current := CurrentNetwork(user.value);
      if Constants.Networks(current).None? {
        return Failed;
      }
      return Showing(current);
    }
    var name := ToUpper(args[0]);
    if Constants.Networks(name).None? {
      return InvalidNetwork(name);
    }
    users.UpdatePreferredNetwork(id, Some(name));
    o := Switched(name);
  }

  /** After a switch, `/network` with no argument shows the network switched to. */
  lemma SwitchThenShow(rows: seq<Users.UserRow>, id: string, text: string, other: string)
    requires Decide(Users.FindById(rows, id), Chat.Args(text)).Switched?
    ensures var n := Decide(Users.FindById(rows, id), Chat.Args(text)).network;
      Decide(Users.FindById(Users.SetPreferredNetwork(rows, id, Some(n)), id), Chat.Args(other)) ==
        if |Chat.Args(other)| == 0 then Showing(n) else Decide(Users.FindById(rows, id), Chat.Args(other))
  {
    var n := Decide(Users.FindById(rows, id), Chat.Args(text)).network;
    Users.SetPreferredNetworkOnlyThatUser(rows, id, Some(n), id);
  }

  // ---------------------------------------------------------------------------
  // Replies

  /** One line of the listing: the mark, the network's name and its key. */
  function Line(key: string, current: string): (r: string)
    requires key in Constants.NetworkNames
    ensures |r| > 0 && (r[0] == '✅' <==> key == current)
  {
    (if key == current then "✅" else "⚪") + " " + Constants.Networks(key).value.name + " (" + key + ")"
  }

  /** The listing's lines, one per network in table order; exactly the current
      network's line is checked. */
  function Lines(current: string): (r: seq<string>)
    ensures |r| == |Constants.NetworkNames|
    ensures forall k :: 0 <= k < |r| ==> |r[k]| > 0 && (r[k][0] == '✅' <==> Constants.NetworkNames[k] == current)
  {
    [Line("BASE", current), Line("POLYGON", current), Line("ARBITRUM", current)]
  }

  /** `parts.join(sep)`. */
  function JoinWith(parts: seq<string>, sep: string): string
    decreases |parts|
  {
    if |parts| == 0 then "" else if |parts| == 1 then parts[0] else parts[0] + sep + JoinWith(parts[1..], sep)
  }

  function Reply(o: NetworkOutcome): string {
    match o
    case NotRegistered => "❌ Please /start the bot first to create your wallet."
    case Showing(current) =>
      (match Constants.Networks(current)
       case Some(info) =>
         "🌐 **Current Network:** " + info.name + "\n\n"
         + "**Available Networks:**\n" + JoinWith(Lines(current), "\n") + "\n\n"
         + "Use /network <network> to switch\nExample: /network POLYGON"
       case None => FailedText)
    case InvalidNetwork(_) => "❌ Invalid network. Available: " + JoinWith(Constants.NetworkNames, ", ")
    case Switched(n) =>
      (match Constants.Networks(n)
       case Some(info) =>
         "✅ Switched to **" + info.name + "**\nChain ID: " + NatToString(info.chainId) + "\nExplorer: " + info.explorer
       case None => FailedText)
    case Failed => FailedText
  }

  const FailedText: string := "❌ Failed to switch network. Please try again."
}
