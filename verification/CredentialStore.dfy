/**
 The worker credentials of `backend/app/agent/enroll.py`: `normalize_url`,
 `credential_path`, `load_credential`, `save_credential`,
 `record_fingerprint` and `forget_credential`, over URLs as `urlsplit` cuts
 them.
 */
module CredentialStore {
  import opened Wrappers
  import opened AsciiText

  datatype Url = Url(scheme: string, host: string, port: Option<nat>, path: string)

  type FileName = (string, nat)

  datatype Credential = Credential(url: Url, worker: string, token: string, pin: Option<string>)

  /** A credential file; one that cannot be parsed holds nothing. */
  datatype File = Unreadable | Readable(credential: Credential)

  /** `path.rstrip("/")` */
  function NoSlash(s: string): string {
    if s != "" && s[|s| - 1] == '/' then NoSlash(s[..|s| - 1]) else s
  }

  /** `parts.port or ...`: port 0 counts as none. */
  function PortOf(u: Url): nat {
    if u.port.Some? && u.port.value != 0 then u.port.value else if Lower(u.scheme) == "https" then 443 else 80
  }

  /** `normalize_url`; None where it raises. */
  function Normal(u: Url): Option<Url> {
    if Lower(u.scheme) !in {"http", "https"} || u.host == "" then None
    else Some(Url(Lower(u.scheme), Lower(u.host), Some(PortOf(u)), NoSlash(u.path)))
  }

  predicate Kept(c: char) {
    'a' <= c <= 'z' || '0' <= c <= '9' || c == '.' || c == '-'
  }

  /**
   `re.sub(r"[^a-z0-9.-]+", "_", host)`: plain characters, never two
   replacements in a row, and a plain host is its own.
   */
  function Safe(host: string, inRun: bool): (name: string)
    ensures forall i | 0 <= i < |name| :: Kept(name[i]) || name[i] == '_'
    ensures forall i | 0 <= i < |name| - 1 :: name[i] != '_' || name[i + 1] != '_'
    ensures inRun && name != "" ==> name[0] != '_'
    ensures (forall i | 0 <= i < |host| :: Kept(host[i])) ==> name == host
  {
    if host == "" then ""
    else
      var more := Safe(host[1..], !Kept(host[0]));
      assert host == [host[0]] + host[1..];
      assert forall i | 0 <= i < |host| - 1 :: host[1..][i] == host[i + 1];
      if Kept(host[0]) then [host[0]] + more
      else if inRun then more
      else "_" + more
  }

  /** `credential_path` */
  function FileOf(u: Url): Option<FileName> {
    if Normal(u).None? then None else Some((Safe(Normal(u).value.host, false), Normal(u).value.port.value))
  }

  predicate SamePlane(u: Url, v: Url) {
    Normal(u).Some? && Normal(u) == Normal(v)
  }

  // ── certificate pins ──────────────────────────────────────────────────

  const PREFIX := "sha256:"

  predicate IsHex(c: char) {
    '0' <= c <= '9' || 'a' <= c <= 'f'
  }

  predicate AllHex(s: string) {
    forall i | 0 <= i < |s| :: IsHex(s[i])
  }

  /** `re.sub(r"[\s:]", "", text)` */
  function Digits(s: string): string {
    if s == "" then "" else (if IsSpace(s[0]) || s[0] == ':' then "" else [s[0]]) + Digits(s[1..])
  }

  /** `tls_fingerprint.normalize`; None where it raises. */
  function NormalPin(value: string): Option<string> {
    var text := Lower(Strip(value));
    var digits := Digits(if StartsWith(text, PREFIX) then text[|PREFIX|..] else text);
    if |digits| == 64 && AllHex(digits) then Some(PREFIX + digits) else None
  }

  /** `_stored_pin`: a malformed one is ignored. */
  function StoredPin(raw: Option<string>): Option<string> {
    if raw.None? || raw.value == "" then None else NormalPin(raw.value)
  }

  /** What `save_credential` takes for a pin without raising. */
  predicate PinOk(pin: Option<string>) {
    pin.None? || pin.value == "" || NormalPin(pin.value).Some?
  }

  // ── the files ─────────────────────────────────────────────────────────

  /** What the store answers for `u`. */
  function Loaded(files: map<FileName, File>, u: Url): Option<Credential>
    requires Normal(u).Some?
  {
    var f := FileOf(u).value;
    if f in files && files[f].Readable? && SamePlane(files[f].credential.url, u)
    then Some(files[f].credential.(pin := StoredPin(files[f].credential.pin))) else None
  }

  function Saved(files: map<FileName, File>, u: Url, worker: string, token: string, pin: Option<string>): map<FileName, File>
    requires Normal(u).Some? && PinOk(pin)
  {
    files[FileOf(u).value := Readable(Credential(Normal(u).value, worker, token, StoredPin(pin)))]
  }

  /** A file that holds another control plane's credential is left alone; one with no usable URL is nobody's. */
  predicate Forgets(files: map<FileName, File>, u: Url)
    requires Normal(u).Some?
  {
    var f := FileOf(u).value;
    f in files && (files[f].Unreadable? || Normal(files[f].credential.url).None? || SamePlane(files[f].credential.url, u))
  }

  function Forgotten(files: map<FileName, File>, u: Url): map<FileName, File>
    requires Normal(u).Some?
  {
    if Forgets(files, u) then files - {FileOf(u).value} else files
  }

  datatype StoreError = BadUrl | BadPin

  class Store {
    var files: map<FileName, File>

    constructor ()
      ensures files == map[]
    {
      files := map[];
    }

    /** `load_credential` */
    method Load(u: Url) returns (r: Result<Option<Credential>, StoreError>)
      ensures r == if Normal(u).None? then Err(BadUrl) else Ok(Loaded(files, u))
    {
      var f := FileOf(u);
      if f.None? { return Err(BadUrl); }
      if f.value !in files || files[f.value].Unreadable? { return Ok(None); }
      var stored := files[f.value].credential;
      if Normal(stored.url).None? || Normal(stored.url) != Normal(u) { return Ok(None); }
      r := Ok(Some(stored.(pin := StoredPin(stored.pin))));
    }

    /** `save_credential` */
    method Save(u: Url, worker: string, token: string, pin: Option<string>) returns (r: Result<FileName, StoreError>)
      modifies this
      ensures Normal(u).None? ==> r == Err(BadUrl) && files == old(files)
      ensures Normal(u).Some? && !PinOk(pin) ==> r == Err(BadPin) && files == old(files)
      ensures Normal(u).Some? && PinOk(pin) ==>
        r == Ok(FileOf(u).value) && files == Saved(old(files), u, worker, token, pin)
    {
      var f := FileOf(u);
      if f.None? { return Err(BadUrl); }
      var stored: Option<string> := None;
      if pin.Some? && pin.value != "" {
        stored := NormalPin(pin.value);
        if stored.None? { return Err(BadPin); }
      }
      files := files[f.value := Readable(Credential(Normal(u).value, worker, token, stored))];
      r := Ok(f.value);
    }

    /** `record_fingerprint`: None when there was nothing to write. */
    method RecordFingerprint(u: Url, pin: string) returns (r: Result<Option<FileName>, StoreError>)
      modifies this
      ensures Normal(u).None? ==> r == Err(BadUrl) && files == old(files)
      ensures Normal(u).Some? ==>
        var was := Loaded(old(files), u);
        if was.None? then r == Ok(None) && files == old(files)
        else if NormalPin(pin).None? then r == Err(BadPin) && files == old(files)
        else if was.value.pin == NormalPin(pin) then r == Ok(None) && files == old(files)
        else r == Ok(FileOf(u)) && files == Saved(old(files), u, was.value.worker, was.value.token, Some(pin))
    {
      hide Normal, NormalPin;
      EmptyIsNoPin();
      var stored := Load(u);
      if stored.Err? { return Err(BadUrl); }
      if stored.value.None? { return Ok(None); }
      if NormalPin(pin).None? { return Err(BadPin); }
      if stored.value.value.pin == NormalPin(pin) { return Ok(None); }
      var saved := Save(u, stored.value.value.worker, stored.value.value.token, Some(pin));
      r := Ok(Some(saved.value));
    }

    /** `forget_credential` */
    method Forget(u: Url) returns (r: Result<Option<FileName>, StoreError>)
      modifies this
      ensures Normal(u).None? ==> r == Err(BadUrl) && files == old(files)
      ensures Normal(u).Some? ==>
        files == Forgotten(old(files), u) && r == Ok(if Forgets(old(files), u) then FileOf(u) else None)
    {
      var f := FileOf(u);
      if f.None? { return Err(BadUrl); }
      if f.value !in files { return Ok(None); }
      if files[f.value].Readable? {
        var stored := Normal(files[f.value].credential.url);
        if stored.Some? && stored != Normal(u) { return Ok(None); }
      }
      files := files - {f.value};
      r := Ok(f);
    }
  }

  lemma EmptyIsNoPin()
    ensures NormalPin("").None?
  {
  }

  // ── the promises ──────────────────────────────────────────────────────

  lemma {:induction false} NoSlashTwice(s: string)
    ensures NoSlash(NoSlash(s)) == NoSlash(s)
  {
    if s != "" && s[|s| - 1] == '/' { NoSlashTwice(s[..|s| - 1]); }
  }

  /** Two spellings of one control plane have one normal form, which is its own. */
  lemma NormalTwice(u: Url)
    requires Normal(u).Some?
    ensures Normal(Normal(u).value) == Normal(u) && FileOf(Normal(u).value) == FileOf(u)
  {
    LowerTwice(u.scheme);
    LowerTwice(u.host);
    NoSlashTwice(u.path);
    PortKept(u);
  }

  lemma PortKept(u: Url)
    ensures PortOf(u) != 0
  {
  }

  /** A URL without a port, or with port 0, is the control plane at its scheme's own port, however the scheme is written. */
  lemma DefaultPorts(scheme: string, host: string, path: string, none: Option<nat>)
    requires host != "" && (none == None || none == Some(0))
    ensures Lower(scheme) == "http" ==> SamePlane(Url(scheme, host, none, path), Url("http", host, Some(80), path))
    ensures Lower(scheme) == "https" ==> SamePlane(Url(scheme, host, none, path), Url("https", host, Some(443), path))
  {
    hide Lower, NoSlash;
    LowerHttp();
    LowerHttps();
    assert "https" != "http";
  }

  /** Two URLs are one control plane exactly when scheme and host differ in case only, the ports are one and the paths differ in closing slashes only. */
  lemma SamePlaneIff(u: Url, v: Url)
    requires u.port.Some? && v.port.Some? && u.port.value > 0 && v.port.value > 0
    ensures SamePlane(u, v) <==>
      && Lower(u.scheme) == Lower(v.scheme) && (Lower(u.scheme) == "http" || Lower(u.scheme) == "https")
      && u.host != "" && Lower(u.host) == Lower(v.host) && u.port == v.port
      && Bare(u.path) == Bare(v.path)
  {
    assert |Lower(u.host)| == |u.host| && |Lower(v.host)| == |v.host| by { LowerTwice(u.host); LowerTwice(v.host); }
    NoSlashIsBare(u.path);
    NoSlashIsBare(v.path);
  }

  /** A path up to its last character that is no slash. */
  function Bare(path: string): string {
    path[..Solid(path)]
  }

  function Solid(path: string): (n: nat)
    ensures n <= |path| && (n > 0 ==> path[n - 1] != '/') && forall i | n <= i < |path| :: path[i] == '/'
  {
    if path == "" then 0
    else
      var n := Solid(path[1..]);
      assert forall i | 1 <= i < |path| :: path[i] == path[1..][i - 1];
      if n > 0 then n + 1 else if path[0] == '/' then 0 else 1
  }

  lemma SolidIs(path: string, n: nat)
    requires n <= |path| && (n > 0 ==> path[n - 1] != '/') && forall i | n <= i < |path| :: path[i] == '/'
    ensures Solid(path) == n
  {
    var m := Solid(path);
    assert m > 0 ==> path[m - 1] != '/';
  }

  lemma {:induction false} NoSlashIsBare(path: string)
    ensures NoSlash(path) == Bare(path)
  {
    if path != "" && path[|path| - 1] == '/' {
      var shorter := path[..|path| - 1];
      NoSlashIsBare(shorter);
      SolidIs(path, Solid(shorter));
      assert path[..Solid(path)] == shorter[..Solid(shorter)];
    } else {
      SolidIs(path, |path|);
    }
  }

  lemma {:induction false} HexStays(s: string)
    requires AllHex(s)
    ensures Lower(s) == s && Digits(s) == s
  {
    if s != "" { HexStays(s[1..]); }
  }

  lemma {:induction false} LowerConcat(a: string, b: string)
    ensures Lower(a + b) == Lower(a) + Lower(b)
  {
    if a == "" {
      assert a + b == b;
    } else {
      assert (a + b)[1..] == a[1..] + b;
      LowerConcat(a[1..], b);
    }
  }

  lemma LowerPrefix()
    ensures Lower(PREFIX) == PREFIX
  {
    assert PREFIX[1..] == "ha256:" && "ha256:"[1..] == "a256:" && "a256:"[1..] == "256:" && "256:"[1..] == "56:";
    assert "56:"[1..] == "6:" && "6:"[1..] == ":" && ":"[1..] == "";
    assert Lower(":") == ":" && Lower("6:") == "6:" && Lower("56:") == "56:" && Lower("256:") == "256:";
  }

  /** A pin in its normal form is normalised to itself. */
  lemma NormalPinTwice(value: string)
    requires NormalPin(value).Some?
    ensures NormalPin(NormalPin(value).value) == NormalPin(value)
  {
    var pin := NormalPin(value).value;
    var digits := pin[|PREFIX|..];
    assert pin == PREFIX + digits && |digits| == 64 && AllHex(digits);
    assert !IsSpace(pin[0]) && IsHex(digits[63]) && pin[|pin| - 1] == digits[63];
    StripNothing(pin);
    LowerConcat(PREFIX, digits);
    LowerPrefix();
    HexStays(digits);
    assert pin[..|PREFIX|] == PREFIX;
  }

  lemma PinTwice(pin: Option<string>)
    ensures StoredPin(StoredPin(pin)) == StoredPin(pin)
  {
    if StoredPin(pin).Some? { NormalPinTwice(pin.value); }
  }

  /**
   After a save for `u`, every URL of the same control plane finds exactly
   that credential; a different one that shares the file finds none; any other
   finds what it found before.
   */
  lemma LoadAfterSave(files: map<FileName, File>, u: Url, worker: string, token: string, pin: Option<string>, v: Url)
    requires Normal(u).Some? && Normal(v).Some? && PinOk(pin)
    ensures Loaded(Saved(files, u, worker, token, pin), v) ==
      if SamePlane(u, v) then Some(Credential(Normal(u).value, worker, token, StoredPin(pin)))
      else if FileOf(u) == FileOf(v) then None
      else Loaded(files, v)
  {
    hide Normal, Safe, NormalPin;
    PinTwice(pin);
    if SamePlane(u, v) { SameFile(u, v); }
    NormalIs(u);
  }

  lemma SameFile(u: Url, v: Url)
    requires SamePlane(u, v)
    ensures FileOf(u) == FileOf(v)
  {
  }

  lemma NormalIs(u: Url)
    requires Normal(u).Some?
    ensures SamePlane(Normal(u).value, u)
  {
    NormalTwice(u);
  }

  /** Forgetting one control plane leaves nothing of it, and every other as it was. */
  lemma LoadAfterForget(files: map<FileName, File>, u: Url, v: Url)
    requires Normal(u).Some? && Normal(v).Some?
    ensures Loaded(Forgotten(files, u), v) == if SamePlane(u, v) then None else Loaded(files, v)
  {
    hide Normal, Safe;
    if SamePlane(u, v) { SameFile(u, v); }
  }

  /** Two control planes on one host and port share a file: the second save leaves the first without a credential. */
  lemma PathsShareAFile()
    ensures exists u, v, files ::
      && Normal(u).Some? && Normal(v).Some? && !SamePlane(u, v)
      && Loaded(files, v).Some? && Loaded(Saved(files, u, "w", "t", None), v).None?
  {
    var u, v := Url("http", "h", Some(80), "/a"), Url("http", "h", Some(80), "/b");
    assert Lower("http") == "http" by { LowerHttp(); }
    assert NoSlash("/a") == "/a" && NoSlash("/b") == "/b";
    assert "/a"[1] != "/b"[1];
    assert Normal(u) != Normal(v) && Normal(u).Some? && Normal(v).Some?;
    var files := Saved(map[], v, "w", "t", None);
    LoadAfterSave(map[], v, "w", "t", None, v);
    LoadAfterSave(files, u, "w", "t", None, v);
  }

  lemma LowerHttp()
    ensures Lower("http") == "http"
  {
    assert Lower("") == "" && "p"[1..] == "" && "tp"[1..] == "p" && "ttp"[1..] == "tp" && "http"[1..] == "ttp";
    assert Lower("p") == "p";
    assert Lower("tp") == "tp";
    assert Lower("ttp") == "ttp";
  }

  lemma LowerHttps()
    ensures Lower("https") == "https"
  {
    LowerHttp();
    LowerConcat("http", "s");
    assert "http" + "s" == "https" && "s"[1..] == "" && Lower("") == "";
  }
}
