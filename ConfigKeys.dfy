/**
  The application-setting keys under which the feature's configuration is
  stored: a fixed prefix followed by a per-setting suffix.
*/
module ConfigKeys {

  const KeyPrefix := "servicestack.cloudtrail.requestlogs."

  /** The sub-prefix shared by the AWS addressing and credential keys. */
  const AwsPrefix := KeyPrefix + "aws."

  const Enabled := KeyPrefix + "enabled"
  const EnableErrorTracking := KeyPrefix + "errortracking.enabled"
  const EnableRequestBodyTracking := KeyPrefix + "requestbodytracking.enabled"
  const EnableSessionTracking := KeyPrefix + "sessiontracking.enabled"
  const EnableResponseTracking := KeyPrefix + "responsetracking.enabled"
  const RequiredRoles := KeyPrefix + "requiredroles"
  const AwsAccessKeyId := AwsPrefix + "AccessKeyId"
  const AwsSecretAccessKey := AwsPrefix + "SecretAccessKey"
  const Region := AwsPrefix + "Region"
  const LogGroupName := KeyPrefix + "LogGroup"

  /** Every key, in declaration order. */
  function AllKeys(): seq<string> {
    [Enabled, EnableErrorTracking, EnableRequestBodyTracking, EnableSessionTracking,
     EnableResponseTracking, RequiredRoles, AwsAccessKeyId, AwsSecretAccessKey, Region,
     LogGroupName]
  }

  /** Every key starts with the common prefix. */
  lemma AllKeysSharePrefix()
    ensures forall i :: 0 <= i < |AllKeys()| ==> KeyPrefix <= AllKeys()[i]
  {
  }

  /** No two settings share a key. */
  lemma AllKeysDistinct()
    ensures forall i, j :: 0 <= i < j < |AllKeys()| ==> AllKeys()[i] != AllKeys()[j]
  {
    // the suffixes have pairwise different lengths
    var lengths := seq(|AllKeys()|, i requires 0 <= i < |AllKeys()| => |AllKeys()[i]|);
    assert lengths == [43, 57, 63, 59, 60, 49, 51, 55, 46, 44];
  }

  /** The access-key, secret and region keys share the "aws." sub-prefix. */
  lemma AwsKeysShareSubPrefix()
    ensures AwsPrefix <= AwsAccessKeyId && AwsPrefix <= AwsSecretAccessKey && AwsPrefix <= Region
    ensures KeyPrefix <= AwsPrefix
  {
  }
}
