/** The guild roster extractor: one request for the guild, validation of the reply, and
    one flat record per member with fixed defaults for missing fields. The load into the
    warehouse is reduced to its guard and to the batch it appends. */
module Guild {
  import opened Wrappers
  import opened PyJson
  import opened Http
  import opened Storage
  import opened UrlQuote

  const GuildName := "Digit One"
  const GuildApi := "https://api.tibiadata.com/v4/guild/"

  /** The request URL: the API prefix, then the guild name percent-encoded by `quote`. */
  function GuildUrl(name: string): string {
    GuildApi + Quote(name)
  }

  /** The name can be read back from the URL: the encoded part decodes to it. */
  lemma GuildUrlDecodes(name: string)
    ensures GuildUrl(name)[..|GuildApi|] == GuildApi
    ensures Unquote(GuildUrl(name)[|GuildApi|..]) == Some(name)
  {
    assert GuildUrl(name)[|GuildApi|..] == Quote(name);
    QuoteRoundTrip(name);
  }

  /** The configured guild is requested with its space written `%20`. */
  lemma ConfiguredGuildUrl()
    ensures GuildUrl(GuildName) == GuildApi + "Digit%20One"
  {
    var a, b := "Digit", "One";
    assert GuildName == a + " " + b;
    assert a + "%20" + b == "Digit%20One";
    assert IsUnreservedText(a) && IsUnreservedText(b);
    QuoteSpace(a, b);
  }

  // ================================================================ one member

  /** The columns of every record. */
  const Columns: set<string> :=
    {"guild_name", "rank", "character_name", "vocation", "level", "joined_date", "status", "extraction_date"}

  /** The record of one member: the guild's name, the member's fields with their defaults,
      and the extraction date. Only a dict has `.get`; any other member raises. */
  function MemberRecord(guildName: Json, member: Json, date: string): Result<Record> {
    if !member.JObj? then Raised
    else
      Ok(map[
        "guild_name" := guildName,
        "rank" := Get(member, "rank", JStr("Unknown")).value,
        "character_name" := Get(member, "name", JStr("Unknown")).value,
        "vocation" := Get(member, "vocation", JStr("None")).value,
        "level" := Get(member, "level", JNum(0)).value,
        "joined_date" := Get(member, "joined", JNull).value,
        "status" := Get(member, "status", JStr("offline")).value,
        "extraction_date" := JStr(date)
      ])
  }

  /** A field the member carries is copied; a missing one takes its default. */
  function FieldOr(fields: map<string, Json>, key: string, default: Json): Json {
    if key in fields then fields[key] else default
  }

  /** Every record has exactly the eight columns; a member field is copied when present and
      takes its fixed default when missing; the guild name and the date are the shared ones.
      A member that is not an object raises. */
  lemma MemberRecordFields(guildName: Json, member: Json, date: string)
    ensures MemberRecord(guildName, member, date).Ok? <==> member.JObj?
    ensures member.JObj? ==>
              var r := MemberRecord(guildName, member, date).value;
              var m := member.fields;
              && r.Keys == Columns
              && r["guild_name"] == guildName
              && r["rank"] == FieldOr(m, "rank", JStr("Unknown"))
              && r["character_name"] == FieldOr(m, "name", JStr("Unknown"))
              && r["vocation"] == FieldOr(m, "vocation", JStr("None"))
              && r["level"] == FieldOr(m, "level", JNum(0))
              && r["joined_date"] == FieldOr(m, "joined", JNull)
              && r["status"] == FieldOr(m, "status", JStr("offline"))
              && r["extraction_date"] == JStr(date)
  {
  }

  /** An empty member object gets every default. */
  lemma EmptyMemberDefaults(guildName: Json, date: string)
    ensures MemberRecord(guildName, JObj(map[]), date) == Ok(map[
              "guild_name" := guildName, "rank" := JStr("Unknown"), "character_name" := JStr("Unknown"),
              "vocation" := JStr("None"), "level" := JNum(0), "joined_date" := JNull,
              "status" := JStr("offline"), "extraction_date" := JStr(date)])
  {
  }

  // ================================================================ the member list

  /** The records of `members`, appended one by one. `data['guild']['name']` is evaluated
      again for every member, so a guild without a name raises only if it has members. */
  function MemberRecords(guild: Json, members: seq<Json>, date: string): Result<seq<Record>>
    decreases |members|
  {
    if members == [] then Ok([])
    else
      match MemberRecords(guild, members[..|members| - 1], date)
      case Raised => Raised
      case Ok(records) =>
        match Index(guild, "name")
        case Raised => Raised
        case Ok(name) =>
          match MemberRecord(name, members[|members| - 1], date)
          case Raised => Raised
          case Ok(record) => Ok(records + [record])
  }

  /** One record per member, in member order, each built with the guild's name; the list
      fails exactly when there is a member and either the guild has no name or some member
      is not an object. */
  lemma {:induction false} MemberRecordsInOrder(guild: Json, members: seq<Json>, date: string)
    ensures MemberRecords(guild, members, date).Ok? <==>
              members == [] || (Index(guild, "name").Ok? && forall i :: 0 <= i < |members| ==> members[i].JObj?)
    ensures MemberRecords(guild, members, date).Ok? && members != [] ==>
              var records := MemberRecords(guild, members, date).value;
              && |records| == |members|
              && forall i :: 0 <= i < |members| ==>
                   records[i] == MemberRecord(Index(guild, "name").value, members[i], date).value
    ensures MemberRecords(guild, members, date).Ok? && members == [] ==> MemberRecords(guild, members, date).value == []
    decreases |members|
  {
    if members != [] {
      var init := members[..|members| - 1];
      MemberRecordsInOrder(guild, init, date);
      assert forall i :: 0 <= i < |init| ==> init[i] == members[i];
      if Index(guild, "name").Ok? {
        MemberRecordFields(Index(guild, "name").value, members[|members| - 1], date);
      }
    }
  }

  // ================================================================ fetch_guild_data

  /** `fetch_guild_data` on the reply to its one request. A failed connection and a body
      that is not JSON raise (nothing catches them); any status but 200 gives no members,
      and so does a body without `guild` or a guild without `members`. */
  function GuildRoster(reply: Reply, date: string): Result<seq<Record>> {
    match reply
    case ConnectionError => Raised
    case Response(status, body) =>
      if status != 200 then Ok([])
      else if body.None? then Raised
      else
        var data := body.value;
        match In("guild", data)
        case Raised => Raised
        case Ok(false) => Ok([])
        case Ok(true) =>
          match Index(data, "guild")
          case Raised => Raised
          case Ok(guild) =>
            match In("members", guild)
            case Raised => Raised
            case Ok(false) => Ok([])
            case Ok(true) =>
              match Index(guild, "members")
              case Raised => Raised
              case Ok(raw) =>
                match Elements(raw)
                case Raised => Raised
                case Ok(members) => MemberRecords(guild, members, date)
  }

  /** The guard clauses: any status but 200, a body without `guild`, or a guild without
      `members` yields the empty list. */
  lemma RosterGuards(reply: Reply, date: string)
    ensures reply.Response? && reply.status != 200 ==> GuildRoster(reply, date) == Ok([])
    ensures reply.Response? && reply.status == 200 && reply.body.Some? && reply.body.value.JObj?
            && "guild" !in reply.body.value.fields
            ==> GuildRoster(reply, date) == Ok([])
    ensures reply.Response? && reply.status == 200 && reply.body.Some? && reply.body.value.JObj?
            && "guild" in reply.body.value.fields && reply.body.value.fields["guild"].JObj?
            && "members" !in reply.body.value.fields["guild"].fields
            ==> GuildRoster(reply, date) == Ok([])
  {
  }

  /** A well-formed reply: a 200 whose body, whatever else it holds, has a guild with a name
      and a list of member objects gives one record per member, in order, each carrying the
      guild's name and the date. */
  lemma RosterOfWellFormedReply(body: map<string, Json>, name: Json, members: seq<Json>,
                                fields: map<string, Json>, date: string)
    requires "guild" in body && body["guild"] == JObj(fields)
    requires "name" in fields && fields["name"] == name
    requires "members" in fields && fields["members"] == JArr(members)
    requires forall i :: 0 <= i < |members| ==> members[i].JObj?
    ensures var reply := Response(200, Some(JObj(body)));
            && GuildRoster(reply, date).Ok?
            && |GuildRoster(reply, date).value| == |members|
            && forall i :: 0 <= i < |members| ==>
                 var r := GuildRoster(reply, date).value[i];
                 && r == MemberRecord(name, members[i], date).value
                 && r["guild_name"] == name
                 && r["extraction_date"] == JStr(date)
  {
    var guild := JObj(fields);
    MemberRecordsInOrder(guild, members, date);
    forall i | 0 <= i < |members| {
      MemberRecordFields(name, members[i], date);
    }
  }

  /** `fetch_guild_data(guild_name)`: one request, the guards, then one record per member. */
  method FetchGuildData(net: Upstream, guildName: string, date: string) returns (members: Result<seq<Record>>)
    modifies net
    ensures members == GuildRoster(net.respond(GuildUrl(guildName)), date)
    ensures net.requested == old(net.requested) + [GuildUrl(guildName)]
  {
    var url := GuildApi + Quote(guildName);
    var response := net.Get(url);
    if response.ConnectionError? {
      return Raised;
    }
    if response.status != 200 {
      return Ok([]);
    }
    if response.body.None? {
      return Raised;
    }
    var data := response.body.value;
    var hasGuild := In("guild", data);
    if hasGuild.Raised? {
      return Raised;
    }
    if !hasGuild.value {
      return Ok([]);
    }
    var guild := Index(data, "guild");
    if guild.Raised? {
      return Raised;
    }
    var hasMembers := In("members", guild.value);
    if hasMembers.Raised? {
      return Raised;
    }
    if !hasMembers.value {
      return Ok([]);
    }
    var raw := Index(guild.value, "members");
    if raw.Raised? {
      return Raised;
    }
    var rawMembers := Elements(raw.value);
    if rawMembers.Raised? {
      return Raised;
    }
    var items := rawMembers.value;
    MemberRecordsInOrder(guild.value, items, date);
    var membersData: seq<Record> := [];
    for i := 0 to |items|
      invariant MemberRecords(guild.value, items[..i], date) == Ok(membersData)
    {
      assert items[..i + 1][..i] == items[..i];
      var name := Index(guild.value, "name");
      if name.Raised? {
        return Raised;
      }
      var record := MemberRecord(name.value, items[i], date);
      if record.Raised? {
        MemberRecordFields(name.value, items[i], date);
        return Raised;
      }
      membersData := membersData + [record.value];
    }
    assert items[..|items|] == items;
    return Ok(membersData);
  }

  // ================================================================ save_to_bigquery

  /** The warehouse table, as the batches appended to it. */
  class Warehouse {
    var loads: seq<seq<Record>>

    constructor (loads: seq<seq<Record>>)
      ensures this.loads == loads
    {
      this.loads := loads;
    }

    /** `save_to_bigquery(data)`: nothing for an empty list; otherwise one appended batch. */
    method SaveToBigQuery(data: seq<Record>)
      modifies this
      ensures data == [] ==> loads == old(loads)
      ensures data != [] ==> loads == old(loads) + [data]
    {
      if data == [] {
        return;
      }
      loads := loads + [data];
    }
  }

  /** The batch a roster produces: none when it raised or is empty, itself otherwise. */
  function RosterLoads(roster: Result<seq<Record>>): seq<seq<Record>> {
    if roster.Ok? && roster.value != [] then [roster.value] else []
  }

  /** A reply that fails the guards loads nothing. */
  lemma GuardedReplyLoadsNothing(reply: Reply, date: string)
    requires reply.Response? && reply.status != 200
    ensures RosterLoads(GuildRoster(reply, date)) == []
  {
  }

  /** The script: fetch the configured guild, then save what came back. Returns whether an
      exception ended it before the save. */
  method RunGuild(net: Upstream, warehouse: Warehouse, date: string) returns (raised: bool)
    modifies net, warehouse
    ensures net.requested == old(net.requested) + [GuildUrl(GuildName)]
    ensures raised == GuildRoster(net.respond(GuildUrl(GuildName)), date).Raised?
    ensures warehouse.loads == old(warehouse.loads) + RosterLoads(GuildRoster(net.respond(GuildUrl(GuildName)), date))
  {
    var members := FetchGuildData(net, GuildName, date);
    if members.Raised? {
      return true;
    }
    warehouse.SaveToBigQuery(members.value);
    return false;
  }
}
