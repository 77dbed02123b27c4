/**
  The CloudWatch Logs side of delivery: the log groups and streams the
  logger can see, the events appended to each stream, and the calls the
  logger has made. `Setup` is what `SetupCloudTrailEnv` does to that
  state and to the logger's `envInit` flag (`Provision` when both names
  are set); `Deliver` adds the one `PutLogEvents` call of
  `BufferedLogEntries`.
*/
module RemoteLogs {
  import opened Wrappers
  import opened RequestLogEntry

  /** A call the logger issues against the service, in the order it issues them. */
  datatype Call =
    | DescribeLogGroups(prefix: string)
    | CreateLogGroup(group: string)
    | DescribeLogStreams(group: string)
    | CreateLogStream(group: string, stream: string)
    | PutLogEvents(group: string, stream: string)

  /** One shipped event: its timestamp and the entry it encodes. */
  datatype LogEvent = LogEvent(timestamp: nat, message: EntryRecord)

  /** Groups, each with its streams and their events; and the call history. */
  datatype Remote = Remote(groups: map<string, map<string, seq<LogEvent>>>, calls: seq<Call>)

  /** `DescribeLogGroups` with a name prefix: the groups whose names start with it. */
  function GroupsWithPrefix(r: Remote, prefix: string): (names: set<string>)
    ensures forall g :: g in names <==> g in r.groups && prefix <= g
  {
    set g | g in r.groups && prefix <= g
  }

  /** `DescribeLogStreams` on a group: its stream names (none for a missing group). */
  function StreamsOf(r: Remote, group: string): (names: set<string>)
    ensures group in r.groups ==> names == r.groups[group].Keys
    ensures group !in r.groups ==> names == {}
  {
    if group in r.groups then r.groups[group].Keys else {}
  }

  /** The logger's flag together with the service state after provisioning. */
  datatype Provisioned = Provisioned(envInit: bool, remote: Remote)

  /**
    The group half of `SetupCloudTrailEnv`: list the groups by prefix,
    create the group when no listed group has exactly its name, then list
    the group's streams. The group exists afterwards and nothing else changes.
  */
  function GroupReady(r: Remote, group: string): (r': Remote)
    ensures group in r'.groups
    ensures forall g :: g in r.groups ==> g in r'.groups && r'.groups[g] == r.groups[g]
    ensures r'.groups.Keys == r.groups.Keys + {group}
  {
    var listed := r.(calls := r.calls + [DescribeLogGroups(group)]);
    assert group in r.groups ==> group in GroupsWithPrefix(listed, group);
    var withGroup :=
      if forall g :: g in GroupsWithPrefix(listed, group) ==> g != group
      then listed.(groups := listed.groups[group := map[]], calls := listed.calls + [CreateLogGroup(group)])
      else listed;
    withGroup.(calls := withGroup.calls + [DescribeLogStreams(group)])
  }

  /**
    `SetupCloudTrailEnv` with both names: nothing once `envInit` is set.
    Otherwise make the group ready, return when the stream is among the
    group's streams, else create the stream and only then set `envInit`.
  */
  function Provision(envInit: bool, r: Remote, group: string, stream: string): (p: Provisioned)
    ensures !envInit ==> group in p.remote.groups && stream in p.remote.groups[group]
  {
    if envInit then Provisioned(true, r)
    else
      var listed := GroupReady(r, group);
      if stream in StreamsOf(listed, group) then Provisioned(false, listed)
      else
        var streams := listed.groups[group][stream := []];
        Provisioned(true, listed.(groups := listed.groups[group := streams],
                                  calls := listed.calls + [CreateLogStream(group, stream)]))
  }

  /**
    `SetupCloudTrailEnv` for any configuration. Without a group name the
    group listing has no prefix filter, so it lists every group, and the
    group creation that follows is rejected. With a group name but no
    stream name the group is made ready and the stream creation is
    rejected. A rejected call changes nothing, and the exception it raises
    ends the setup with `envInit` still clear.
  */
  function Setup(envInit: bool, r: Remote, group: Option<string>, stream: Option<string>): (p: Provisioned)
    ensures envInit ==> p == Provisioned(true, r)
    ensures !envInit && group.None? ==> p == Provisioned(false, r.(calls := r.calls + [DescribeLogGroups("")]))
    ensures !envInit && group.Some? && stream.None? ==> !p.envInit && group.value in p.remote.groups
    ensures !envInit && group.Some? && stream.Some? ==> group.value in p.remote.groups && stream.value in p.remote.groups[group.value]
  {
    if envInit then Provisioned(true, r)
    else if group.None? then Provisioned(false, r.(calls := r.calls + [DescribeLogGroups("")]))
    else if stream.None? then Provisioned(false, GroupReady(r, group.value))
    else Provision(false, r, group.value, stream.value)
  }

  /** `PutLogEvents` of one event; a missing group or stream makes the call fail with no effect on the streams. */
  function Put(r: Remote, group: string, stream: string, event: LogEvent): (r': Remote)
    ensures r'.calls == r.calls + [PutLogEvents(group, stream)]
    ensures r'.groups.Keys == r.groups.Keys
  {
    var called := r.(calls := r.calls + [PutLogEvents(group, stream)]);
    if group in r.groups && stream in r.groups[group] then
      called.(groups := r.groups[group := r.groups[group][stream := r.groups[group][stream] + [event]]])
    else called
  }

  /**
    `BufferedLogEntries`: set up, then put the entry. A missing name makes
    the put (or the setup before it) fail, so no event is put.
  */
  function Deliver(envInit: bool, r: Remote, group: Option<string>, stream: Option<string>, event: LogEvent): Provisioned {
    var p := Setup(envInit, r, group, stream);
    if group.Some? && stream.Some? then Provisioned(p.envInit, Put(p.remote, group.value, stream.value, event))
    else p
  }

  // ---------------------------------------------------------------------
  // Properties of provisioning

  /** Once `envInit` is set, provisioning makes no call and changes nothing. */
  lemma InitialisedReturnsImmediately(r: Remote, group: string, stream: string)
    ensures Provision(true, r, group, stream) == Provisioned(true, r)
  {
  }

  /**
    Before initialisation, the calls made are: the group listing, then a
    group creation exactly when the group was absent, then the stream
    listing, then a stream creation exactly when the stream was absent.
  */
  lemma ProvisionCalls(r: Remote, group: string, stream: string)
    ensures var p := Provision(false, r, group, stream);
            var made := p.remote.calls[|r.calls|..];
            && r.calls <= p.remote.calls
            && made == [DescribeLogGroups(group)]
                       + (if group !in r.groups then [CreateLogGroup(group)] else [])
                       + [DescribeLogStreams(group)]
                       + (if stream !in StreamsOf(r, group) then [CreateLogStream(group, stream)] else [])
  {
    var p := Provision(false, r, group, stream);
    if group in r.groups {
      assert group in GroupsWithPrefix(r.(calls := r.calls + [DescribeLogGroups(group)]), group);
    }
  }

  /**
    `envInit` ends up set exactly when the stream had to be created: when
    the stream already existed, the flag stays clear and the next call
    provisions again.
  */
  lemma FlagSetOnlyByStreamCreation(r: Remote, group: string, stream: string)
    ensures Provision(false, r, group, stream).envInit <==> stream !in StreamsOf(r, group)
  {
    if group in r.groups {
      assert group in GroupsWithPrefix(r.(calls := r.calls + [DescribeLogGroups(group)]), group);
    }
  }

  /** Provisioning only ever adds: every group, stream and event that existed is still there. */
  lemma ProvisionOnlyAdds(envInit: bool, r: Remote, group: string, stream: string)
    ensures var q := Provision(envInit, r, group, stream).remote;
            forall g, s :: g in r.groups && s in r.groups[g] ==> g in q.groups && s in q.groups[g] && q.groups[g][s] == r.groups[g][s]
  {
    if !envInit && group in r.groups {
      assert group in GroupsWithPrefix(r.(calls := r.calls + [DescribeLogGroups(group)]), group);
    }
  }

  /**
    When the stream already exists, every provisioning call repeats the two
    listings and creates nothing, and the flag never becomes set.
  */
  lemma ExistingStreamListsAgain(r: Remote, group: string, stream: string)
    requires stream in StreamsOf(r, group)
    ensures var p := Provision(false, r, group, stream);
            && p == Provisioned(false, r.(calls := r.calls + [DescribeLogGroups(group), DescribeLogStreams(group)]))
            && Provision(p.envInit, p.remote, group, stream).remote.calls
               == r.calls + [DescribeLogGroups(group), DescribeLogStreams(group), DescribeLogGroups(group), DescribeLogStreams(group)]
  {
    var listed := r.(calls := r.calls + [DescribeLogGroups(group)]);
    assert group in GroupsWithPrefix(listed, group);
    var p := Provision(false, r, group, stream);
    assert p.remote.groups == r.groups;
    assert group in GroupsWithPrefix(p.remote.(calls := p.remote.calls + [DescribeLogGroups(group)]), group);
  }

  /** Provisioning twice leaves the groups and streams as provisioning once did. */
  lemma ProvisionIdempotent(envInit: bool, r: Remote, group: string, stream: string)
    ensures var p := Provision(envInit, r, group, stream);
            Provision(p.envInit, p.remote, group, stream).remote.groups == p.remote.groups
  {
    var p := Provision(envInit, r, group, stream);
    if !p.envInit {
      assert group in GroupsWithPrefix(p.remote.(calls := p.remote.calls + [DescribeLogGroups(group)]), group);
    }
  }

  /**
    A delivery from an uninitialised logger lands in the stream: the event
    is appended after the events already there.
  */
  lemma DeliveryAppends(r: Remote, group: string, stream: string, event: LogEvent)
    ensures var q := Deliver(false, r, Some(group), Some(stream), event).remote;
            var before := if group in r.groups && stream in r.groups[group] then r.groups[group][stream] else [];
            group in q.groups && stream in q.groups[group] && q.groups[group][stream] == before + [event]
  {
    ProvisionOnlyAdds(false, r, group, stream);
    var p := Provision(false, r, group, stream);
    if !(group in r.groups && stream in r.groups[group]) {
      if group in r.groups {
        assert group in GroupsWithPrefix(r.(calls := r.calls + [DescribeLogGroups(group)]), group);
      }
      assert p.remote.groups[group][stream] == [];
    }
  }

  /**
    Without a stream name, setup makes the same calls as provisioning up to
    the stream listing and stops there with `envInit` clear; when the
    stream already exists, the two are the same.
  */
  lemma MissingStreamStopsAtGroup(r: Remote, group: string, stream: string)
    ensures var q := Setup(false, r, Some(group), None);
            var p := Provision(false, r, group, stream);
            && !q.envInit
            && r.calls <= q.remote.calls <= p.remote.calls
            && q.remote.calls[|r.calls|..] == [DescribeLogGroups(group)]
                                              + (if group !in r.groups then [CreateLogGroup(group)] else [])
                                              + [DescribeLogStreams(group)]
            && (stream in StreamsOf(r, group) ==> p == q)
  {
    if group in r.groups {
      assert group in GroupsWithPrefix(r.(calls := r.calls + [DescribeLogGroups(group)]), group);
    }
  }

  /** Without a group name, the listing has no prefix and returns every group; nothing is created. */
  lemma MissingGroupListsEveryGroup(r: Remote, stream: Option<string>)
    ensures GroupsWithPrefix(r, "") == r.groups.Keys
    ensures var q := Setup(false, r, None, stream);
            !q.envInit && q.remote.groups == r.groups && q.remote.calls == r.calls + [DescribeLogGroups("")]
  {
  }

  /** Without both names no event is stored: every stream keeps its events. */
  lemma NoEventWithoutBothNames(envInit: bool, r: Remote, group: Option<string>, stream: Option<string>, event: LogEvent)
    requires group.None? || stream.None?
    ensures var q := Deliver(envInit, r, group, stream, event);
            && q.envInit == envInit
            && forall g, s :: g in r.groups && s in r.groups[g] ==> g in q.remote.groups && s in q.remote.groups[g]
                                                                    && q.remote.groups[g][s] == r.groups[g][s]
  {
  }

  // ---------------------------------------------------------------------
  // The service client

  /** The CloudWatch Logs client: each method is one service call. */
  class CloudWatchLogsClient {
    var remote: Remote

    constructor(remote: Remote)
      ensures this.remote == remote
    {
      this.remote := remote;
    }

    method DescribeLogGroupsAsync(prefix: string) returns (names: set<string>)
      modifies this
      ensures names == GroupsWithPrefix(old(remote), prefix)
      ensures remote == old(remote).(calls := old(remote).calls + [DescribeLogGroups(prefix)])
    {
      names := GroupsWithPrefix(remote, prefix);
      remote := remote.(calls := remote.calls + [DescribeLogGroups(prefix)]);
    }

    method CreateLogGroupAsync(group: string)
      modifies this
      ensures remote == old(remote).(groups := old(remote).groups[group := map[]],
                                     calls := old(remote).calls + [CreateLogGroup(group)])
    {
      remote := remote.(groups := remote.groups[group := map[]], calls := remote.calls + [CreateLogGroup(group)]);
    }

    method DescribeLogStreamsAsync(group: string) returns (names: set<string>)
      modifies this
      ensures names == StreamsOf(old(remote), group)
      ensures remote == old(remote).(calls := old(remote).calls + [DescribeLogStreams(group)])
    {
      names := StreamsOf(remote, group);
      remote := remote.(calls := remote.calls + [DescribeLogStreams(group)]);
    }

    method CreateLogStreamAsync(group: string, stream: string)
      requires group in remote.groups
      modifies this
      ensures remote == old(remote).(groups := old(remote).groups[group := old(remote).groups[group][stream := []]],
                                     calls := old(remote).calls + [CreateLogStream(group, stream)])
    {
      remote := remote.(groups := remote.groups[group := remote.groups[group][stream := []]],
                        calls := remote.calls + [CreateLogStream(group, stream)]);
    }

    method PutLogEventsAsync(group: string, stream: string, event: LogEvent)
      modifies this
      ensures remote == Put(old(remote), group, stream, event)
    {
      remote := Put(remote, group, stream, event);
    }
  }
}
