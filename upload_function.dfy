/**
 * The request handling of the upload edge function (`supabase/functions/upload`): the
 * checks on the posted data URL (`data:[<mediatype>][;base64],<data>`, section 3 of
 * RFC 2397), the split into header and payload, the content type and the storage file
 * name.  A thrown error becomes a 500 reply carrying its message; the base64 decoding
 * and the storage calls are outside the model.
 */
module UploadFunction {
  import opened Wrappers
  import opened JsText
  import opened StorageNames

  const DataImagePrefix: string := "data:image"
  const InvalidDataUrl: string := "Invalid or missing image data URL in request body."
  const MalformedDataUrl: string := "Malformed data URL."
  /** The `TypeError` raised when a truthy `imageName` that is not a string is sanitised. */
  const ReplaceNotAFunction: string := "imageNameFromBody.replace is not a function"
  const DefaultExtension: string := ".png"

  /** A JSON field as the handler sees it: a string, or some other value (absent, null, a
      number, an object ...) of which only its truthiness matters. */
  datatype JsValue = JsString(s: string) | JsOther(truthy: bool)

  predicate IsTruthy(v: JsValue) {
    match v
    case JsString(s) => s != ""
    case JsOther(t) => t
  }

  /** The parsed request body. */
  datatype UploadBody = UploadBody(file: JsValue, imageName: JsValue)

  /** What goes to storage: the object's name, the base64 payload and its content type. */
  datatype StorageUpload = StorageUpload(filename: string, base64: string, contentType: string)

  /** `header.split(':')[1].split(';')[0]`; the header of an accepted data URL always holds
      a `:`. */
  function ContentTypeOf(header: string): string
    requires FirstIndexOfChar(header, ':') < |header|
  {
    SplitHead(header, ':');
    Split(Split(header, ':')[1], ';')[0]
  }

  /** The content type is the text after the first `:` of the header, cut at the next `:`
      and then at the first `;`. */
  lemma ContentTypeOfSpec(header: string)
    requires FirstIndexOfChar(header, ':') < |header|
    ensures var after := header[FirstIndexOfChar(header, ':') + 1..];
      var field := after[..FirstIndexOfChar(after, ':')];
      ContentTypeOf(header) == field[..FirstIndexOfChar(field, ';')] && ';' !in ContentTypeOf(header)
  {
    var after := header[FirstIndexOfChar(header, ':') + 1..];
    SplitHead(header, ':');
    SplitHead(after, ':');
    var field := Split(header, ':')[1];
    assert field == after[..FirstIndexOfChar(after, ':')];
    SplitHead(field, ';');
  }

  /** The header of a string starting with `data:image` keeps that prefix, so it holds the
      `:` at position 4. */
  lemma HeaderHasColon(dataUrl: string)
    requires StartsWith(dataUrl, DataImagePrefix)
    ensures FirstIndexOfChar(Split(dataUrl, ',')[0], ':') == 4 < |Split(dataUrl, ',')[0]|
  {
    SplitHead(dataUrl, ',');
    var header := Split(dataUrl, ',')[0];
    NoCommaInPrefix(dataUrl);
    assert header[..10] == dataUrl[..10];
    ColonOfPrefix(header);
  }

  /** No comma occurs before position 10 of a string starting with `data:image`. */
  lemma NoCommaInPrefix(dataUrl: string)
    requires StartsWith(dataUrl, DataImagePrefix)
    ensures FirstIndexOfChar(dataUrl, ',') >= 10
  {
    assert dataUrl[..10] == DataImagePrefix;
    assert forall k :: 0 <= k < 10 ==> dataUrl[k] == DataImagePrefix[k];
  }

  /** A string starting with `data:image` has its first `:` at position 4. */
  lemma ColonOfPrefix(header: string)
    requires |header| >= 10 && header[..10] == DataImagePrefix
    ensures FirstIndexOfChar(header, ':') == 4 < |header|
  {
    assert forall k :: 0 <= k < 10 ==> header[k] == DataImagePrefix[k];
    assert header[4] == ':' && ':' !in header[..4];
  }

  /** The handler from `req.json()` to the storage call, for the clock reading
      `timestamp` and the random string `randomString`. */
  function PrepareUpload(body: UploadBody, timestamp: nat, randomString: string): Result<StorageUpload> {
    match body.file
    case JsOther(_) => Failure(InvalidDataUrl)
    case JsString(dataUrl) =>
      if dataUrl == "" || !StartsWith(dataUrl, DataImagePrefix) then Failure(InvalidDataUrl)
      else
        var parts := Split(dataUrl, ',');
        if |parts| != 2 then Failure(MalformedDataUrl)
        else
          var stamp := NatToString(timestamp);
          var filenameOrError :=
            match body.imageName
            case JsString(name) =>
              if name != "" then Success(stamp + "-" + Sanitize(name)) else Success(stamp + "-" + randomString + DefaultExtension)
            case JsOther(truthy) =>
              if truthy then Failure(ReplaceNotAFunction) else Success(stamp + "-" + randomString + DefaultExtension);
          match filenameOrError
          case Failure(e) => Failure(e)
          case Success(filename) =>
            HeaderHasColon(dataUrl);
            Success(StorageUpload(filename, parts[1], ContentTypeOf(parts[0])))
  }

  /** The request is accepted exactly when `file` is a string starting with `data:image`
      with one comma, and `imageName` is not a truthy non-string; the errors come in that
      order. */
  lemma PrepareUploadErrors(body: UploadBody, timestamp: nat, randomString: string)
    ensures var r := PrepareUpload(body, timestamp, randomString);
      && (r == Failure(InvalidDataUrl) <==> !(body.file.JsString? && StartsWith(body.file.s, DataImagePrefix)))
      && (r == Failure(MalformedDataUrl) <==>
            body.file.JsString? && StartsWith(body.file.s, DataImagePrefix) && |Split(body.file.s, ',')| != 2)
      && (r.Success? <==>
            body.file.JsString? && StartsWith(body.file.s, DataImagePrefix) && |Split(body.file.s, ',')| == 2
            && !(body.imageName.JsOther? && body.imageName.truthy))
      && (r.Failure? ==> r.error in {InvalidDataUrl, MalformedDataUrl, ReplaceNotAFunction})
  {
    assert |InvalidDataUrl| != |MalformedDataUrl| && |InvalidDataUrl| != |ReplaceNotAFunction|
      && |MalformedDataUrl| != |ReplaceNotAFunction|;
  }

  /** An accepted request uploads the part after the comma, whose header and payload give
      back the data URL; the file name is the timestamp, a dash and either the sanitised
      image name or the random string with `.png`. */
  lemma PrepareUploadSuccess(body: UploadBody, timestamp: nat, randomString: string)
    requires PrepareUpload(body, timestamp, randomString).Success?
    ensures var u := PrepareUpload(body, timestamp, randomString).value;
      var dataUrl := body.file.s;
      var stamp := NatToString(timestamp);
      && body.file.JsString?
      && dataUrl == Split(dataUrl, ',')[0] + "," + u.base64 && ',' !in u.base64
      && FirstIndexOfChar(Split(dataUrl, ',')[0], ':') == 4 < |Split(dataUrl, ',')[0]|
      && u.contentType == ContentTypeOf(Split(dataUrl, ',')[0])
      && StartsWith(u.filename, stamp + "-")
      && (IsTruthy(body.imageName) ==>
            u.filename == stamp + "-" + Sanitize(body.imageName.s) && AllSafe(u.filename[|stamp| + 1..]))
      && (!IsTruthy(body.imageName) ==> u.filename == stamp + "-" + randomString + DefaultExtension)
  {
    var dataUrl := body.file.s;
    var stamp := NatToString(timestamp);
    PreparedUpload(body, timestamp, randomString);
    SplitInTwo(dataUrl, ',');
    HeaderHasColon(dataUrl);
    if IsTruthy(body.imageName) {
      SanitizeSpec(body.imageName.s);
      DashedName(stamp, Sanitize(body.imageName.s));
    } else {
      DashedName(stamp, randomString + DefaultExtension);
    }
  }

  /** The pieces of an accepted request's upload. */
  lemma PreparedUpload(body: UploadBody, timestamp: nat, randomString: string)
    requires PrepareUpload(body, timestamp, randomString).Success?
    ensures var u := PrepareUpload(body, timestamp, randomString).value;
      var stamp := NatToString(timestamp);
      && body.file.JsString? && StartsWith(body.file.s, DataImagePrefix) && |Split(body.file.s, ',')| == 2
      && u.base64 == Split(body.file.s, ',')[1]
      && u.filename == stamp + "-" + (if IsTruthy(body.imageName) then Sanitize(body.imageName.s) else randomString + DefaultExtension)
  {
  }

  /** A name `{stamp}-{tail}` opens with the stamp and a dash, followed by the tail. */
  lemma DashedName(stamp: string, tail: string)
    ensures StartsWith(stamp + "-" + tail, stamp + "-") && (stamp + "-" + tail)[|stamp| + 1..] == tail
  {
    assert (stamp + "-" + tail)[..|stamp| + 1] == stamp + "-";
  }
}
