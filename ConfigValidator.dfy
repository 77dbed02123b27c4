/**
  The configuration validator run before the feature is activated: three
  rules over the access key, the secret key and the region. The AWS region
  lookup is a parameter (`regionKnown`), since it is a table in the AWS SDK.
*/
module ConfigValidator {
  import opened Wrappers

  const AccessKeyRequired := "Aws access key id is required."
  const SecretKeyRequired := "Aws secret access key is required."
  /** The validation library's default message for an empty `Region`. */
  const RegionRequired := "'Region' must not be empty."
  const RegionInvalid := "Aws region is invalid."

  /**
    The characters .NET's `char.IsWhiteSpace` accepts: the ASCII controls
    U+0009 to U+000D, the Unicode space separators, and the line and
    paragraph separators U+0085, U+2028 and U+2029.
  */
  predicate IsWhiteSpace(c: char) {
    || c == ' ' || '\t' <= c <= '\r'
    || c == '\U{0085}' || c == '\U{00A0}' || c == '\U{1680}'
    || '\U{2000}' <= c <= '\U{200A}'
    || c == '\U{2028}' || c == '\U{2029}' || c == '\U{202F}' || c == '\U{205F}' || c == '\U{3000}'
  }

  /** The `NotEmpty()` rule on a string (`string.IsNullOrWhiteSpace` fails it): not null, and not only white space. */
  predicate NotEmpty(s: Option<string>) {
    s.Some? && exists i :: 0 <= i < |s.value| && !IsWhiteSpace(s.value[i])
  }

  /**
    Every rule is evaluated and each failing one contributes its message,
    in rule order. The region rule is two checks: `NotEmpty` (default
    message) and `Must(lookup succeeds)` (the custom message); both run.
  */
  function Validate(accessKeyId: string, secretAccessKey: string, region: Option<string>,
                    regionKnown: Option<string> -> bool): (errors: seq<string>)
    ensures |errors| <= 4
    ensures AccessKeyRequired in errors <==> !NotEmpty(Some(accessKeyId))
    ensures SecretKeyRequired in errors <==> !NotEmpty(Some(secretAccessKey))
    ensures RegionRequired in errors <==> !NotEmpty(region)
    ensures RegionInvalid in errors <==> !regionKnown(region)
  {
    (if NotEmpty(Some(accessKeyId)) then [] else [AccessKeyRequired])
    + (if NotEmpty(Some(secretAccessKey)) then [] else [SecretKeyRequired])
    + (if NotEmpty(region) then [] else [RegionRequired])
    + (if regionKnown(region) then [] else [RegionInvalid])
  }

  /** Validation passes exactly when all three rules pass; nothing else is consulted. */
  lemma ValidIffAllRulesPass(accessKeyId: string, secretAccessKey: string, region: Option<string>,
                             regionKnown: Option<string> -> bool)
    ensures Validate(accessKeyId, secretAccessKey, region, regionKnown) == []
        <==> NotEmpty(Some(accessKeyId)) && NotEmpty(Some(secretAccessKey))
             && NotEmpty(region) && regionKnown(region)
  {
  }

  /** An empty access key, or one made only of white space, is reported first with its message, whatever else holds. */
  lemma EmptyAccessKeyRejected(accessKeyId: string, secretAccessKey: string, region: Option<string>,
                               regionKnown: Option<string> -> bool)
    requires forall i :: 0 <= i < |accessKeyId| ==> IsWhiteSpace(accessKeyId[i])
    ensures Validate(accessKeyId, secretAccessKey, region, regionKnown)[0] == AccessKeyRequired
  {
  }

  /** Non-ASCII white space is white space too: a no-break space or an ideographic space is no access key. */
  lemma UnicodeBlankAccessKeyRejected(secretAccessKey: string, region: Option<string>, regionKnown: Option<string> -> bool)
    ensures Validate("\U{00A0}", secretAccessKey, region, regionKnown)[0] == AccessKeyRequired
    ensures Validate("\U{3000}\U{2003}", secretAccessKey, region, regionKnown)[0] == AccessKeyRequired
  {
  }

  /** A missing or blank region fails validation even when the lookup would accept it. */
  lemma EmptyRegionRejected(accessKeyId: string, secretAccessKey: string, regionKnown: Option<string> -> bool)
    ensures Validate(accessKeyId, secretAccessKey, None, regionKnown) != []
    ensures Validate(accessKeyId, secretAccessKey, Some(""), regionKnown) != []
  {
  }
}
