/** The argument checks of the `ytsync` command (cmd/ytsync.go): from the
    positional arguments `<youtube_api_key> <lbry_channel_name>
    [<youtube_channel_id>]` and the flag values, either a rejection or the
    `Sync` configuration that the command then runs. */
module YtSync {
  import opened Wrappers
  import opened Bytes

  /** The default of `--max-tries`. */
  const DefaultMaxTries := 3

  /** The values of `--stop-on-error`, `--max-tries`, `--takeover-existing-channel` and `--refill`. */
  datatype Flags = Flags(stopOnError: bool, maxTries: int, takeOverExistingChannel: bool, refill: int)

  /** The fields of the `Sync` configuration the command sets. */
  datatype Sync = Sync(youtubeAPIKey: Bytes, youtubeChannelID: Bytes, lbryChannelName: Bytes,
                       stopOnError: bool, maxTries: int, concurrentVideos: int,
                       takeOverExistingChannel: bool, refill: int)

  /** Why the command stops before syncing. `EmptyChannelName` stands for the
      index-out-of-range panic that reading the first byte of "" raises. */
  datatype Rejection = EmptyChannelName | ChannelNameWithoutAt | StopOnErrorWithMaxTries | MaxTriesBelowOne

  /** An LBRY channel name: starts with '@'. */
  predicate IsChannelName(name: Bytes)
  {
    |name| > 0 && name[0] == '@' as byte
  }

  /** Flag values the command accepts: at least one try, and `--stop-on-error`
      only with the default number of tries. */
  predicate FlagsAllowed(flags: Flags)
  {
    !(flags.stopOnError && flags.maxTries != DefaultMaxTries) && flags.maxTries >= 1
  }

  /** A configuration the command can produce. */
  predicate ValidSync(s: Sync)
  {
    && IsChannelName(s.lbryChannelName)
    && FlagsAllowed(Flags(s.stopOnError, s.maxTries, s.takeOverExistingChannel, s.refill))
    && s.concurrentVideos == 1
  }

  /** The checks of `ytsync`, in their order, and the configuration they let
      through. Cobra admits only two or three positional arguments. */
  function SyncFromArgs(args: seq<Bytes>, flags: Flags): (r: Result<Sync, Rejection>)
    requires 2 <= |args| <= 3
    ensures r.Success? <==> IsChannelName(args[1]) && FlagsAllowed(flags)
    ensures args[1] == [] ==> r == Failure(EmptyChannelName)
    ensures args[1] != [] && args[1][0] != '@' as byte ==> r == Failure(ChannelNameWithoutAt)
    ensures IsChannelName(args[1]) && flags.stopOnError && flags.maxTries != DefaultMaxTries ==>
              r == Failure(StopOnErrorWithMaxTries)
    ensures IsChannelName(args[1]) && !flags.stopOnError && flags.maxTries < 1 ==> r == Failure(MaxTriesBelowOne)
    ensures r.Success? ==> ValidSync(r.value)
    ensures r.Success? ==>
              && r.value.youtubeAPIKey == args[0]
              && r.value.lbryChannelName == args[1]
              && r.value.youtubeChannelID == (if |args| == 3 then args[2] else [])
              && r.value.stopOnError == flags.stopOnError
              && r.value.maxTries == flags.maxTries
              && r.value.takeOverExistingChannel == flags.takeOverExistingChannel
              && r.value.refill == flags.refill
  {
    var ytAPIKey := args[0];
    var lbryChannelName := args[1];
    if |lbryChannelName| == 0 then Failure(EmptyChannelName)
    else if lbryChannelName[0] != '@' as byte then Failure(ChannelNameWithoutAt)
    else
      var channelID := if |args| > 2 then args[2] else [];
      if flags.stopOnError && flags.maxTries != DefaultMaxTries then Failure(StopOnErrorWithMaxTries)
      else if flags.maxTries < 1 then Failure(MaxTriesBelowOne)
      else Success(Sync(ytAPIKey, channelID, lbryChannelName, flags.stopOnError, flags.maxTries, 1,
                        flags.takeOverExistingChannel, flags.refill))
  }

  /** Every configuration the command can produce is produced by some
      command line: the one that spells out its fields. */
  lemma EveryValidSyncReachable(s: Sync)
    requires ValidSync(s)
    ensures SyncFromArgs([s.youtubeAPIKey, s.lbryChannelName, s.youtubeChannelID],
                         Flags(s.stopOnError, s.maxTries, s.takeOverExistingChannel, s.refill)) == Success(s)
  {
  }
}
