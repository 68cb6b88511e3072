/** The receiving side of the protocol (omnishard.proto, mock_server.go). */
module Server {
  import opened Basics
  import opened ShardingConfig
  import opened ShardEncoding

  /** Result codes are open: a peer may send one that the client does not know. */
  datatype ResultCode =
    | SUCCESS
    | FAILED_NOT_RETRYABLE
    | FAILED_RETRYABLE
    | SHARD_CONFIG_MISMATCH
    | UNRECOGNIZED(code: int)

  datatype ExportRequest = ExportRequest(record: EncodedRecord, shard: ShardDefinition)

  datatype ExportResponse = ExportResponse(resultCode: ResultCode, shardingConfig: Option<Config>)

  /** Error details of a failed call; RetryInfo is the server's throttling signal. */
  datatype ErrorDetail = RetryInfo(seconds: int, nanos: int) | OtherDetail

  datatype Reply = Answer(response: ExportResponse) | RpcError(details: seq<ErrorDetail>)

  class MockServer {
    var config: Config
    var nextResponseCode: ResultCode
    var nextResponseShardingConfig: Option<Config>
    /** Requests received so far, in order. */
    var requests: seq<ExportRequest>

    constructor ()
      ensures config == [] && requests == [] && nextResponseCode == SUCCESS && nextResponseShardingConfig == None
    {
      config, requests, nextResponseCode, nextResponseShardingConfig := [], [], SUCCESS, None;
    }

    method SetConfig(config: Config)
      modifies this`config
      ensures this.config == config
    {
      this.config := config;
    }

    method OnReceive(request: ExportRequest)
      modifies this`requests
      ensures requests == old(requests) + [request]
    {
      requests := requests + [request];
    }

    /**
     * One call of Export. Bad headers and an unavailable server are the
     * environment's choice. A request is recorded exactly when its shard is
     * part of the configuration, and then whatever code comes next is the answer.
     */
    method Export(request: ExportRequest, headersOk: bool, unavailable: bool) returns (reply: Reply)
      modifies this`requests
      ensures var recorded := headersOk && !unavailable && ShardIsPartOfConfig(request.shard, config);
        && requests == old(requests) + (if recorded then [request] else [])
        && (recorded ==> reply == Answer(ExportResponse(nextResponseCode, nextResponseShardingConfig)))
        && (headersOk && !unavailable && !recorded ==>
          reply == Answer(ExportResponse(SHARD_CONFIG_MISMATCH, Some(config))))
        && (!headersOk ==> reply == RpcError([]))
        && (headersOk && unavailable ==> reply == RpcError([RetryInfo(0, 100_000_000)]))
    {
      if !headersOk {
        return RpcError([]);
      }
      if unavailable {
        return RpcError([RetryInfo(0, 100_000_000)]);
      }
      var isPart := ShardIsPart(request.shard);
      if !isPart {
        return Answer(ExportResponse(SHARD_CONFIG_MISMATCH, Some(config)));
      }
      OnReceive(request);
      return Answer(ExportResponse(nextResponseCode, nextResponseShardingConfig));
    }

    /** The scan of shardIsPartOfConfig. */
    method ShardIsPart(shard: ShardDefinition) returns (isPart: bool)
      ensures isPart <==> ShardIsPartOfConfig(shard, config)
    {
      for i := 0 to |config|
        invariant forall j | 0 <= j < i :: !SameDefinition(config[j], shard)
      {
        var s := config[i];
        if s.shardId == shard.shardId && s.startingHashKey == shard.startingHashKey
          && s.endingHashKey == shard.endingHashKey {
          assert s in config;
          return true;
        }
      }
      return false;
    }
  }
}
