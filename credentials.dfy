/**
 * `CredentialManager`: the encrypted credentials file. A record of username,
 * password and admin page is turned into JSON, encrypted with DPAPI,
 * base64-encoded and written to one file; loading reverses each step.
 *
 * JSON, DPAPI and base64 are one abstract `Codec`: `seal` fails when the
 * encryption raises, `open` fails when base64 decoding, decryption or JSON
 * parsing raises. File-system failures are inputs of each operation.
 */
module Credentials {
  import opened Common

  /** A JSON value inside the record, as far as the manager cares: a string, `null`, or anything else (with its truth value). */
  datatype Value = Str(s: string) | Null | OtherValue(truthy: bool)

  /** What `json.loads` returns: an object, or some other JSON value (with its truth value). */
  datatype Json = Object(fields: map<string, Value>) | NotObject(truthy: bool)

  /** The bytes of the credentials file. */
  type Blob = seq<bv8>

  /** `json.dumps` + DPAPI encryption + base64 encoding, and the way back. */
  datatype Codec = Codec(seal: Json -> Option<Blob>, open: Blob -> Option<Json>)

  /** Decoding undoes encoding: the one assumption made about DPAPI, base64 and JSON. */
  ghost predicate Inverts(codec: Codec) {
    forall doc, blob :: codec.seal(doc) == Some(blob) ==> codec.open(blob) == Some(doc)
  }

  /** Python's truth value of a JSON value. */
  predicate Truthy(v: Value) {
    match v
    case Str(s) => s != ""
    case Null => false
    case OtherValue(t) => t
  }

  /** The record `store_credentials` writes; a missing admin page is `null`. */
  function StoredDocument(username: string, password: string, adminpage: Option<string>): Json {
    Object(map["username" := Str(username), "password" := Str(password), "adminpage" := if adminpage.Some? then Str(adminpage.value) else Null])
  }

  /** `d.get(k, default)`. */
  function GetOr(fields: map<string, Value>, k: string, default: Value): Value {
    if k in fields then fields[k] else default
  }

  /** What `load_credentials` returns for a file: nothing when it is absent, unreadable or undecodable. */
  function Loaded(codec: Codec, file: Option<Blob>, readFails: bool): Option<Json> {
    if file.None? || readFails then None else codec.open(file.value)
  }

  /** The file after `store_credentials`: the new blob, unless encryption or the write failed. */
  function AfterStore(file: Option<Blob>, sealed: Option<Blob>, writeFails: bool): Option<Blob> {
    if sealed.Some? && !writeFails then sealed else file
  }

  /** The file after `clear_credentials`: gone, unless deleting it failed. */
  function AfterClear(file: Option<Blob>, unlinkFails: bool): Option<Blob> {
    if file.Some? && unlinkFails then file else None
  }

  /** What `get_credentials_info` returns: no password, only whether one is set. */
  datatype CredentialInfo = CredentialInfo(username: Value, adminpage: Value, hasPassword: bool)

  function Info(doc: Option<Json>): (info: Option<CredentialInfo>)
    ensures info.Some? <==> doc.Some? && doc.value.Object? && doc.value.fields != map[]
    ensures info.Some? ==> info.value.hasPassword == ("password" in doc.value.fields && Truthy(doc.value.fields["password"]))
  {
    match doc
    case None => None
    case Some(Object(fields)) =>
      if fields == map[] then None
      else Some(CredentialInfo(GetOr(fields, "username", Str("")), GetOr(fields, "adminpage", Str("")), "password" in fields && Truthy(fields["password"])))
    // A truthy non-object raises on `.get`, which is caught; a falsy one is skipped.
    case Some(NotObject(_)) => None
  }

  /** The admin page of a loaded record as the callers see it: `null` and a missing key are `None`. */
  function AdminpageOf(doc: Json): Option<string> {
    if doc.Object? && "adminpage" in doc.fields && doc.fields["adminpage"].Str? then Some(doc.fields["adminpage"].s) else None
  }

  /** Storing then loading gives back the same username, password and admin page, `None` included. */
  lemma StoreLoadRoundTrip(codec: Codec, file: Option<Blob>, username: string, password: string, adminpage: Option<string>)
    requires Inverts(codec)
    requires codec.seal(StoredDocument(username, password, adminpage)).Some?
    ensures var doc := Loaded(codec, AfterStore(file, codec.seal(StoredDocument(username, password, adminpage)), false), false);
      && doc == Some(StoredDocument(username, password, adminpage))
      && doc.value.fields["username"] == Str(username)
      && doc.value.fields["password"] == Str(password)
      && AdminpageOf(doc.value) == adminpage
  {
  }

  /** The last successful store wins, whatever the file held before. */
  lemma LastStoreWins(file1: Option<Blob>, file2: Option<Blob>, sealed: Blob)
    ensures AfterStore(file1, Some(sealed), false) == AfterStore(file2, Some(sealed), false) == Some(sealed)
  {
  }

  /** After a successful clear nothing loads and no credentials are reported, and clearing again changes nothing. */
  lemma ClearLeavesNothing(codec: Codec, file: Option<Blob>, unlinkFails: bool, readFails: bool)
    requires file.None? || !unlinkFails
    ensures AfterClear(file, unlinkFails) == None
    ensures Loaded(codec, AfterClear(file, unlinkFails), readFails) == None
    ensures Info(Loaded(codec, AfterClear(file, unlinkFails), readFails)) == None
    ensures AfterClear(AfterClear(file, unlinkFails), unlinkFails) == None
  {
  }

  /** The info of a stored record: its username and admin page, and whether its password is non-empty. */
  lemma StoredInfo(codec: Codec, username: string, password: string, adminpage: Option<string>)
    requires Inverts(codec)
    requires codec.seal(StoredDocument(username, password, adminpage)).Some?
    ensures var info := Info(Loaded(codec, codec.seal(StoredDocument(username, password, adminpage)), false));
      && info == Some(CredentialInfo(Str(username), if adminpage.Some? then Str(adminpage.value) else Null, password != ""))
  {
    var doc := StoredDocument(username, password, adminpage);
    assert "username" in doc.fields && "password" in doc.fields;
  }

  /** The credentials file `~/.auto_mudfish/credentials.enc` and the codec protecting it. */
  class CredentialManager {
    /** The file's contents; `None` while it does not exist. */
    var file: Option<Blob>
    const codec: Codec

    constructor (codec: Codec, file: Option<Blob>)
      ensures this.codec == codec && this.file == file
    {
      this.codec := codec;
      this.file := file;
    }

    /** `store_credentials`: true iff the record was encrypted and written; otherwise the file is untouched. */
    method StoreCredentials(username: string, password: string, adminpage: Option<string>, writeFails: bool) returns (ok: bool)
      modifies this
      ensures var sealed := codec.seal(StoredDocument(username, password, adminpage));
        && ok == (sealed.Some? && !writeFails)
        && file == AfterStore(old(file), sealed, writeFails)
    {
      var document := StoredDocument(username, password, adminpage);
      var encoded := codec.seal(document);
      if encoded.None? {
        return false;
      }
      if writeFails {
        return false;
      }
      file := encoded;
      ok := true;
    }

    /** `load_credentials`: None when the file is absent or anything in reading, decoding or parsing fails. */
    method LoadCredentials(readFails: bool) returns (credentials: Option<Json>)
      ensures file.None? ==> credentials == None
      ensures readFails ==> credentials == None
      ensures file.Some? && !readFails ==> credentials == codec.open(file.value)
    {
      if file.None? {
        return None;
      }
      if readFails {
        return None;
      }
      credentials := codec.open(file.value);
    }

    /** `clear_credentials`: true whether or not a file existed; false only when deleting it fails. */
    method ClearCredentials(unlinkFails: bool) returns (ok: bool)
      modifies this
      ensures ok == (old(file).None? || !unlinkFails)
      ensures file == AfterClear(old(file), unlinkFails)
      ensures ok ==> file == None
    {
      if file.Some? {
        if unlinkFails {
          return false;
        }
        file := None;
      }
      ok := true;
    }

    /** `has_credentials`: the file exists and loads. */
    method HasCredentials(readFails: bool) returns (has: bool)
      ensures has <==> file.Some? && Loaded(codec, file, readFails).Some?
    {
      if file.None? {
        return false;
      }
      var credentials := LoadCredentials(readFails);
      has := credentials.Some?;
    }

    /** `get_credentials_info`: username, admin page and whether a password is set; None when nothing loads. */
    method GetCredentialsInfo(readFails: bool) returns (info: Option<CredentialInfo>)
      ensures Loaded(codec, file, readFails) == None ==> info == None
      ensures info == Info(Loaded(codec, file, readFails))
    {
      var credentials := LoadCredentials(readFails);
      if credentials.None? {
        return None;
      }
      match credentials.value {
        case Object(fields) =>
          if fields == map[] {
            return None;
          }
          var username := if "username" in fields then fields["username"] else Str("");
          var adminpage := if "adminpage" in fields then fields["adminpage"] else Str("");
          var hasPassword := "password" in fields && Truthy(fields["password"]);
          info := Some(CredentialInfo(username, adminpage, hasPassword));
        case NotObject(_) =>
          info := None;
      }
    }
  }
}
