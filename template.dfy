/**
 * cftdeploy/template.py: a CloudFormation template, where it came from (a
 * local file or an S3 object), the `s3://bucket/key` names it is written
 * and read under, its validation by the provider, and the parameter text and
 * values of the manifest generated from it.
 */
module Template {

  import opened Wrappers
  import opened Strings
  import opened Faults
  import opened PyDict
  import opened PyValue

  const NoName: string := "A Template has no name"

  /** The provider's message for a template body over 51200 bytes. */
  const TooLargeMessage: string := "Member must have length less than or equal to 51200"

  const NoTemplateLine: string := "# WARNING - No Template Source Defined."

  /** The name `upload` and `download` give an S3 object. */
  function S3Url(bucket: string, key: string): string {
    "s3://" + bucket + "/" + key
  }

  /** The URL `validate` and `generate_manifest` hand to the provider. */
  function HttpsUrl(bucket: string, key: string): string {
    "https://s3.amazonaws.com/" + bucket + "/" + key
  }

  /**
   * `parse_s3_url`: `re.match(r"s3://(.*?)/(.*?)$", s)`. The bucket is the
   * text up to the first '/', the key the rest; `.` does not cross a newline,
   * and `$` also matches before one final newline, which the key then leaves
   * out. When nothing matches, `bucket` is never assigned and reading it
   * raises UnboundLocalError; so the `(None, None)` returns cannot happen.
   */
  function ParseS3Url(s: string): (r: Result<(string, string), Fault>)
    ensures r.Err? ==> r.error == UnboundLocal("bucket")
  {
    if !("s3://" <= s) then Err(UnboundLocal("bucket"))
    else
      var t := s[5..];
      if '/' !in t then Err(UnboundLocal("bucket"))
      else
        var i := IndexOf(t, '/');
        var b, u := t[..i], t[i + 1..];
        if '\n' in b then Err(UnboundLocal("bucket"))
        else if '\n' !in u then Ok((b, u))
        else if u[|u| - 1] == '\n' && '\n' !in u[..|u| - 1] then Ok((b, u[..|u| - 1]))
        else Err(UnboundLocal("bucket"))
  }

  /** The first '/' after "s3://" in an S3 name is the one after the bucket. */
  lemma S3UrlSlash(bucket: string, key: string)
    requires '/' !in bucket
    ensures var t := S3Url(bucket, key)[5..];
      t == bucket + "/" + key && '/' in t && IndexOf(t, '/') == |bucket|
  {
    var t := S3Url(bucket, key)[5..];
    assert t == bucket + "/" + key;
    assert t[..|bucket|] == bucket;
    IndexOfAt(t, '/', |bucket|);
  }

  /**
   * What `upload` names an object, `parse_s3_url` reads back: for a bucket
   * without '/' and a key of one line (the key may hold '/').
   */
  lemma S3UrlRoundTrip(bucket: string, key: string)
    requires '/' !in bucket && '\n' !in bucket && '\n' !in key
    ensures ParseS3Url(S3Url(bucket, key)) == Ok((bucket, key))
  {
    var s := S3Url(bucket, key);
    assert s[..5] == "s3://";
    S3UrlSlash(bucket, key);
    var t := s[5..];
    assert t[..|bucket|] == bucket && t[|bucket| + 1..] == key;
  }

  /**
   * And every name `parse_s3_url` accepts is such a name, possibly with one
   * newline after it.
   */
  lemma ParseS3UrlOnlyNames(s: string, bucket: string, key: string)
    requires ParseS3Url(s) == Ok((bucket, key))
    ensures '/' !in bucket && '\n' !in bucket && '\n' !in key
    ensures s == S3Url(bucket, key) || s == S3Url(bucket, key) + "\n"
  {
    ParsedParts(s);
    var t := s[5..];
    var i := IndexOf(t, '/');
    var u := t[i + 1..];
    assert bucket == s[5..5 + i] && '/' !in bucket && '\n' !in bucket by {
      assert t[..i] == s[5..5 + i];
    }
    assert '\n' !in key && (s[6 + i..] == key || s[6 + i..] == key + "\n") by {
      KeyOfRest(u, key);
      assert u == s[6 + i..];
    }
    Reassemble(s, i, key);
  }

  /** The key is what follows the bucket's '/', less the one newline `$` allows at the end. */
  lemma KeyOfRest(u: string, key: string)
    requires if '\n' in u then |u| > 0 && u[|u| - 1] == '\n' && '\n' !in u[..|u| - 1] && key == u[..|u| - 1]
             else key == u
    ensures '\n' !in key && (u == key || u == key + "\n")
  {
    if '\n' in u {
      assert u == u[..|u| - 1] + "\n";
    }
  }

  /** A name cut at its first '/' after "s3://" is put back together by `S3Url`. */
  lemma Reassemble(s: string, i: nat, key: string)
    requires "s3://" <= s && 5 + i < |s| && s[5 + i] == '/'
    requires s[6 + i..] == key || s[6 + i..] == key + "\n"
    ensures s == S3Url(s[5..5 + i], key) || s == S3Url(s[5..5 + i], key) + "\n"
  {
    assert s == s[..5] + s[5..5 + i] + "/" + s[6 + i..];
    if s[6 + i..] == key + "\n" {
      assert s == S3Url(s[5..5 + i], key) + "\n";
    }
  }

  /** Where the bucket and the key of an accepted name come from. */
  lemma ParsedParts(s: string)
    requires ParseS3Url(s).Ok?
    ensures "s3://" <= s && '/' in s[5..]
    ensures var t := s[5..]; var i := IndexOf(t, '/'); var u := t[i + 1..];
      && '\n' !in t[..i]
      && (if '\n' in u then |u| > 0 && u[|u| - 1] == '\n' && '\n' !in u[..|u| - 1] else true)
      && ParseS3Url(s).value == (t[..i], if '\n' in u then u[..|u| - 1] else u)
  {
  }

  /** The `$` of the pattern: one trailing newline is dropped from the key. */
  lemma S3UrlTrailingNewline(bucket: string, key: string)
    requires '/' !in bucket && '\n' !in bucket && '\n' !in key
    ensures ParseS3Url(S3Url(bucket, key) + "\n") == Ok((bucket, key))
  {
    var s := S3Url(bucket, key) + "\n";
    assert s[..5] == "s3://";
    var t := s[5..];
    assert t == bucket + "/" + (key + "\n");
    assert t[..|bucket|] == bucket;
    IndexOfAt(t, '/', |bucket|);
    var u := t[|bucket| + 1..];
    assert u == key + "\n";
    assert u[..|u| - 1] == key;
  }

  /** What `validate` sends: the body of a local template, or the URL of an S3 one. */
  datatype TemplateSource = TemplateBody(body: string) | TemplateUrl(url: string)

  /** One entry of the `Parameters` list of a `validate_template` response. */
  datatype TemplateParameter = TemplateParameter(key: string, defaultValue: Option<string>, description: Option<string>)

  datatype ValidateResponse = ValidateResponse(parameters: seq<TemplateParameter>, description: Option<string>)

  /** The provider's answer to `validate_template`: a response, or a ClientError with its code and message. */
  datatype ValidateReply = Validated(response: ValidateResponse) | ValidateFailed(code: string, message: string)

  /** The values `generate_manifest` fills into the manifest skeleton (its timestamp is not modelled). */
  datatype ManifestValues = ManifestValues(
    parameterYaml: string,
    myStackName: Value,
    termProtection: Value,
    templateLine: string,
    templateDescription: string,
    region: Value)

  datatype GenerateOutcome =
    | NotValidated                   // validate returned None: nothing written
    | Refused                        // the target exists and overwrite was not True: exit(1)
    | Written(values: ManifestValues)

  /** The comment and `key: default` lines `generate_manifest` writes for one parameter. */
  function ParameterBlock(p: TemplateParameter): string {
    CommentLine(p) + KeyLine(p)
  }

  function CommentLine(p: TemplateParameter): string {
    if p.description.Some? then "\n\n  # " + p.description.value else "\n\n  # No Description"
  }

  function KeyLine(p: TemplateParameter): string {
    if p.defaultValue.Some? then "\n  " + p.key + ": " + p.defaultValue.value else "\n  " + p.key + ": "
  }

  /** The blocks of the parameters, in order. */
  function Blocks(ps: seq<TemplateParameter>): (bs: seq<string>)
    ensures |bs| == |ps|
    ensures forall i :: 0 <= i < |ps| ==> bs[i] == ParameterBlock(ps[i])
  {
    seq(|ps|, i requires 0 <= i < |ps| => ParameterBlock(ps[i]))
  }

  /** The `parameter_string` of `generate_manifest`: the blocks one after the other. */
  function ParameterYaml(ps: seq<TemplateParameter>): string {
    Flatten(Blocks(ps))
  }

  /** Growing the parameter list by one adds that parameter's block at the end. */
  lemma ParameterYamlSnoc(ps: seq<TemplateParameter>, i: nat)
    requires i < |ps|
    ensures ParameterYaml(ps[..i + 1]) == ParameterYaml(ps[..i]) + ParameterBlock(ps[i])
  {
    var bs := Blocks(ps[..i + 1]);
    assert bs[..i] == Blocks(ps[..i]);
    assert bs[i] == ParameterBlock(ps[i]);
  }

  /** A text made of a block and the text around it contains the block's second half. */
  lemma ContainsSecondHalf(w: string, before: string, x: string, y: string, after: string)
    requires w == before + (x + y) + after
    ensures Contains(w, y)
  {
    assert w == (before + x) + y + after;
    ContainsInfix(before + x, y, after);
  }

  /** Every declared parameter gets its own `key: default` line in the generated text. */
  lemma ParameterYamlHasKeyLine(ps: seq<TemplateParameter>, i: nat)
    requires i < |ps|
    ensures Contains(ParameterYaml(ps), KeyLine(ps[i]))
  {
    var bs := Blocks(ps);
    FlattenAround(bs, i);
    assert bs[i] == CommentLine(ps[i]) + KeyLine(ps[i]);
    ContainsSecondHalf(Flatten(bs), Flatten(bs[..i]), CommentLine(ps[i]), KeyLine(ps[i]), Flatten(bs[i + 1..]));
  }

  /** `manifest_values` after the substitutions `generate_manifest` was given. */
  function Substitute(values: ManifestValues, substitutions: Option<Dict<string, Value>>): (r: ManifestValues)
    ensures r.parameterYaml == values.parameterYaml && r.templateLine == values.templateLine
    ensures r.templateDescription == values.templateDescription
  {
    match substitutions
    case None => values
    case Some(subs) =>
      var v1 := match Get(subs, "termination_protection")
        case Some(x) => values.(termProtection := x)
        case None => values;
      var v2 := match Get(subs, "stack_name")
        case Some(x) => v1.(myStackName := x)
        case None => v1;
      match Get(subs, "region")
      case Some(x) => v2.(region := x)
      case None => v2
  }

  /** A substituted value replaces the default; the others keep it. */
  lemma SubstitutionsReplaceDefaults(values: ManifestValues, subs: Dict<string, Value>)
    ensures var r := Substitute(values, Some(subs));
      && r.myStackName == (if HasKey(subs, "stack_name") then Get(subs, "stack_name").value else values.myStackName)
      && r.termProtection == (if HasKey(subs, "termination_protection") then Get(subs, "termination_protection").value else values.termProtection)
      && r.region == (if HasKey(subs, "region") then Get(subs, "region").value else values.region)
  {
  }

  class CFTemplate {
    const templateBody: string
    const region: string
    const filename: Option<string>
    var s3url: Option<string>

    constructor (templateBody: string, region: string, filename: Option<string>, s3url: Option<string>)
      ensures this.templateBody == templateBody && this.region == region
      ensures this.filename == filename && this.s3url == s3url
    {
      this.templateBody := templateBody;
      this.region := region;
      this.filename := filename;
      this.s3url := s3url;
    }

    /** `__str__`: where the template came from. */
    function Name(): (n: string)
      reads this
      ensures s3url.Some? ==> n == s3url.value
      ensures s3url.None? && filename.Some? ==> n == filename.value
      ensures s3url.None? && filename.None? ==> n == NoName
    {
      if s3url.Some? then s3url.value
      else if filename.Some? then filename.value
      else NoName
    }

    /** `read`: a local template; `files` stands for the file system. */
    static method Read(filename: string, region: string, files: map<string, string>) returns (r: Result<CFTemplate, Fault>)
      ensures filename !in files ==> r == Err(FileNotFound(filename))
      ensures filename in files ==>
        && r.Ok? && fresh(r.value)
        && r.value.templateBody == files[filename] && r.value.region == region
        && r.value.filename == Some(filename) && r.value.s3url == None
    {
      if filename !in files {
        return Err(FileNotFound(filename));
      }
      var t := new CFTemplate(files[filename], region, Some(filename), None);
      return Ok(t);
    }

    /** `download`: `fetched` is what reading the S3 object gave, a body or a ClientError. */
    static method Download(bucket: string, key: string, region: string, fetched: Result<string, Fault>)
      returns (r: Result<CFTemplate, Fault>)
      ensures fetched.Err? ==> r == Err(fetched.error)
      ensures fetched.Ok? ==>
        && r.Ok? && fresh(r.value)
        && r.value.templateBody == fetched.value && r.value.filename == None
        && r.value.s3url == Some(S3Url(bucket, key)) && r.value.region == region
    {
      if fetched.Err? {
        return Err(fetched.error);
      }
      var t := new CFTemplate(fetched.value, region, None, Some(S3Url(bucket, key)));
      return Ok(t);
    }

    /**
     * `upload`: `failure` is the ClientError `put_object` raised, if any; the
     * name is recorded only once the object is stored.
     */
    method Upload(bucket: string, key: string, failure: Option<Fault>) returns (r: Result<string, Fault>)
      modifies this
      ensures failure.Some? ==> r == Err(failure.value) && s3url == old(s3url)
      ensures failure.None? ==> r == Ok(S3Url(bucket, key)) && s3url == Some(S3Url(bucket, key))
      ensures failure.None? ==> Name() == S3Url(bucket, key)
      ensures failure.None? && '/' !in bucket && '\n' !in bucket && '\n' !in key ==>
        ParseS3Url(Name()) == Ok((bucket, key))
    {
      if failure.Some? {
        return Err(failure.value);
      }
      s3url := Some(S3Url(bucket, key));
      if '/' !in bucket && '\n' !in bucket && '\n' !in key {
        S3UrlRoundTrip(bucket, key);
      }
      return Ok(S3Url(bucket, key));
    }

    /**
     * What `validate` sends: the body when the template was read from a file,
     * otherwise the https URL of its S3 name. Without either, `re.match(…, None)`
     * raises TypeError.
     */
    function ValidateRequest(): (r: Result<TemplateSource, Fault>)
      reads this
      ensures filename.Some? ==> r == Ok(TemplateBody(templateBody))
      ensures filename.None? && s3url.None? ==> r.Err? && r.error.TypeError?
      ensures r.Ok? && r.value.TemplateUrl? ==>
        exists b, k :: ParseS3Url(s3url.value) == Ok((b, k)) && r.value.url == HttpsUrl(b, k)
    {
      if filename.Some? then Ok(TemplateBody(templateBody))
      else if s3url.None? then Err(TypeError("expected string or bytes-like object"))
      else
        match ParseS3Url(s3url.value)
        case Err(e) => Err(e)
        case Ok((b, k)) => Ok(TemplateUrl(HttpsUrl(b, k)))
    }

    /**
     * `validate`: the response, None for a template the provider rejects,
     * CFTemplateTooLargeError when the rejection is about the 51200-byte
     * limit, and any other ClientError raised again.
     */
    function Validate(api: TemplateSource -> ValidateReply): (r: Result<Option<ValidateResponse>, Fault>)
      reads this
      ensures ValidateRequest().Err? ==> r == Err(ValidateRequest().error)
      ensures ValidateRequest().Ok? ==>
        match api(ValidateRequest().value)
        case Validated(response) => r == Ok(Some(response))
        case ValidateFailed(code, message) =>
          if code != "ValidationError" then r == Err(ClientError(code, message))
          else if Contains(message, TooLargeMessage) then r == Err(TemplateTooLarge)
          else r == Ok(None)
    {
      match ValidateRequest()
      case Err(e) => Err(e)
      case Ok(source) =>
        match api(source)
        case Validated(response) => Ok(Some(response))
        case ValidateFailed(code, message) =>
          if code != "ValidationError" then Err(ClientError(code, message))
          else if Contains(message, TooLargeMessage) then Err(TemplateTooLarge)
          else Ok(None)
    }

    /** The `template_line` of a generated manifest. */
    function TemplateLine(): (r: Result<string, Fault>)
      reads this
      ensures filename.Some? ==> r == Ok("LocalTemplate: " + filename.value)
      ensures filename.None? && s3url.None? ==> r == Ok(NoTemplateLine)
    {
      if filename.Some? then Ok("LocalTemplate: " + filename.value)
      else if s3url.Some? then
        match ParseS3Url(s3url.value)
        case Err(e) => Err(e)
        case Ok((b, k)) => Ok("S3Template: " + HttpsUrl(b, k))
      else Ok(NoTemplateLine)
    }

    /** The outcome of `generate_manifest` once the template validated, given the parameter text. */
    function Fill(response: ValidateResponse, parameterYaml: string,
                  substitutions: Option<Dict<string, Value>>, overwrite: bool, exists_: bool)
      : (r: Result<GenerateOutcome, Fault>)
      reads this
      ensures response.description.None? ==> r == Err(KeyError("Description"))
      ensures r.Ok? ==> r.value.Written? || r.value.Refused?
      ensures r.Ok? ==> (r.value.Refused? <==> !overwrite && exists_)
      ensures r.Ok? && r.value.Written? ==> r.value.values.parameterYaml == parameterYaml
    {
      if response.description.None? then Err(KeyError("Description"))
      else
        match TemplateLine()
        case Err(e) => Err(e)
        case Ok(line) =>
          var defaults := ManifestValues(parameterYaml, Str("CHANGEME"), Str("false"), line,
                                         response.description.value, Str("CHANGEME"));
          if !overwrite && exists_ then Ok(Refused) else Ok(Written(Substitute(defaults, substitutions)))
    }

    /**
     * `generate_manifest`: validate, accumulate the parameter text, fill the
     * values. `exists_` says whether the target file is already there; the
     * file write itself is not modelled.
     */
    function Generated(api: TemplateSource -> ValidateReply, substitutions: Option<Dict<string, Value>>,
                       overwrite: bool, exists_: bool)
      : Result<GenerateOutcome, Fault>
      reads this
    {
      match Validate(api)
      case Err(e) => Err(e)
      case Ok(None) => Ok(NotValidated)
      case Ok(Some(response)) => Fill(response, ParameterYaml(response.parameters), substitutions, overwrite, exists_)
    }

    method GenerateManifest(api: TemplateSource -> ValidateReply, substitutions: Option<Dict<string, Value>>,
                            overwrite: bool, exists_: bool)
      returns (r: Result<GenerateOutcome, Fault>)
      ensures r == Generated(api, substitutions, overwrite, exists_)
    {
      var validated := Validate(api);
      if validated.Err? {
        return Err(validated.error);
      }
      if validated.value.None? {
        return Ok(NotValidated);
      }
      var response := validated.value.value;
      var text := ParameterText(response.parameters);
      r := Fill(response, text, substitutions, overwrite, exists_);
    }

    /** The loop of `generate_manifest` that accumulates `parameter_string`. */
    static method ParameterText(ps: seq<TemplateParameter>) returns (text: string)
      ensures text == ParameterYaml(ps)
    {
      text := "";
      var i := 0;
      while i < |ps|
        invariant 0 <= i <= |ps|
        invariant text == ParameterYaml(ps[..i])
      {
        ParameterYamlSnoc(ps, i);
        text := text + ParameterBlock(ps[i]);
        i := i + 1;
      }
      assert ps[..|ps|] == ps;
    }

    /** `diff` is not implemented. */
    function Diff(other: CFTemplate): (r: Result<(), Fault>)
      ensures r == Err(NotImplemented)
    {
      Err(NotImplemented)
    }
  }

  /** A template rejected for its size raises CFTemplateTooLargeError, whatever surrounds the message. */
  lemma TooLargeIsRaised(t: CFTemplate, api: TemplateSource -> ValidateReply, before: string, after: string)
    requires t.ValidateRequest().Ok?
    requires api(t.ValidateRequest().value) == ValidateFailed("ValidationError", before + TooLargeMessage + after)
    ensures t.Validate(api) == Err(TemplateTooLarge)
  {
    ContainsInfix(before, TooLargeMessage, after);
  }

  /** A template named `s3://bucket/key` is validated through its https URL. */
  lemma S3TemplateValidatedByUrl(t: CFTemplate, bucket: string, key: string)
    requires t.filename.None? && t.s3url == Some(S3Url(bucket, key))
    requires '/' !in bucket && '\n' !in bucket && '\n' !in key
    ensures t.ValidateRequest() == Ok(TemplateUrl(HttpsUrl(bucket, key)))
    ensures t.TemplateLine() == Ok("S3Template: " + HttpsUrl(bucket, key))
  {
    S3UrlRoundTrip(bucket, key);
  }
}
