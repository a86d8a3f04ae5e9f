/**
 * The dynamic platform of the Rituals Genie plugin: it restores or fetches the
 * account hash and the hub hash, keeps them in a two-key local store, pulls
 * the hub's state into a cached snapshot, and sends attribute patches.
 *
 * Every HTTP call is replaced by a `Reply` the caller supplies, and every
 * request the platform would send is appended to the ghost trace `sent`.
 */
module Platform {
  import opened Wrappers
  import opened HubResponse

  /** The store key of the account hash. */
  const AccountKey := "rituals_account_hash"
  /** The store key of the hub hash. */
  const HubKey := "rituals_hub_hash"

  /** What one `fetch` came back with: a status and a parsed (possibly null) body, or an exception. */
  datatype Reply<T> = Answered(status: int, body: Option<T>) | Threw

  predicate IsOk<T>(r: Reply<T>) {
    r.Answered? && r.status == 200
  }

  /** One `name=value` pair of a form-encoded body, before percent-encoding. */
  datatype FormField = FormField(name: string, value: string)

  /** The four requests the platform can send. Path segments are the text the URL template produces. */
  datatype Request =
    | LoginRequest(form: seq<FormField>)      // POST /ocapi/login
    | ListHubsRequest(accountHash: string)    // GET /api/account/hubs/{accountHash}
    | HubStateRequest(hubHash: string)        // GET /api/account/hub/{hubHash}
    | UpdateAttrRequest(form: seq<FormField>) // POST /api/hub/update/attr

  /** A platform accessory as the host knows it. */
  datatype Accessory = Accessory(displayName: string, uuid: string, contextName: Option<string>)

  /** How JavaScript renders a possibly undefined string in a template literal or `encodeURIComponent`. */
  function Show(v: Option<string>): string {
    match v
    case Some(x) => x
    case None => "undefined"
  }

  /** `getItem`: the stored string, or null for a key never written. */
  function Stored(storage: map<string, string>, key: string): Option<string> {
    if key in storage then Some(storage[key]) else None
  }

  /** The startup test for "not yet known": null or the empty string. */
  predicate Missing(v: Option<string>) {
    v.None? || v.value == ""
  }

  /** `setItem` when there is something to write, otherwise the store as it was. */
  function Persist(storage: map<string, string>, key: string, v: Option<string>): (s: map<string, string>)
    ensures v.Some? ==> Stored(s, key) == v
    ensures forall k :: k != key ==> Stored(s, k) == Stored(storage, k)
    ensures v.None? ==> s == storage
  {
    if v.Some? then storage[key := v.value] else storage
  }

  // ---------------------------------------------------------------------------
  // Reply interpretation
  // ---------------------------------------------------------------------------

  /** The account hash a login reply grants. */
  function GrantedAccount(r: Reply<LoginResponse>): (h: Option<string>)
    ensures h.Some? <==> IsOk(r) && r.body.Some? && r.body.value.accountHash.Some?
    ensures h.Some? ==> h == r.body.value.accountHash
  {
    if IsOk(r) && r.body.Some? then r.body.value.accountHash else None
  }

  /**
   * The hub hash a hub-list reply grants: that of the first element, taken
   * without any choice. A first element whose `hub` is null makes the source
   * throw while reading `.hash`, which is caught, so it grants nothing.
   */
  function GrantedHub(r: Reply<seq<HubEnvelope>>): (h: Option<string>)
    ensures h.Some? <==> IsOk(r) && r.body.Some? && |r.body.value| > 0 && r.body.value[0].hub.Some?
    ensures h.Some? ==> h.value == r.body.value[0].hub.value.hash
  {
    if IsOk(r) && r.body.Some? && |r.body.value| > 0 && r.body.value[0].hub.Some?
    then Some(r.body.value[0].hub.value.hash)
    else None
  }

  /** A state reply that replaces the snapshot: status 200 with a non-null `hub`. */
  predicate StateAccepted(r: Reply<HubEnvelope>) {
    IsOk(r) && r.body.Some? && r.body.value.hub.Some?
  }

  /** The snapshot after a pull: the reply's hub as a whole, or the previous snapshot untouched. */
  function Pulled(prev: Option<Hub>, r: Reply<HubEnvelope>): (next: Option<Hub>)
    ensures StateAccepted(r) ==> next.Some? && next == r.body.value.hub
    ensures !StateAccepted(r) ==> next == prev
  {
    if StateAccepted(r) then r.body.value.hub else prev
  }

  /** The snapshot after an attribute update: one pull when the update answered 200, none otherwise. */
  function AfterUpdate(prev: Option<Hub>, update: Reply<()>, state: Reply<HubEnvelope>): (next: Option<Hub>)
    ensures !IsOk(update) ==> next == prev
    ensures IsOk(update) ==> next == Pulled(prev, state)
  {
    if IsOk(update) then Pulled(prev, state) else prev
  }

  // ---------------------------------------------------------------------------
  // Request bodies
  // ---------------------------------------------------------------------------

  /** The login form: `email` then `password`. */
  function LoginForm(email: string, password: string): seq<FormField> {
    [FormField("email", email), FormField("password", password)]
  }

  /** The update form: `hub` then `json`. */
  function UpdateForm(hubHash: Option<string>, json: string): seq<FormField> {
    [FormField("hub", Show(hubHash)), FormField("json", json)]
  }

  const PatchHead := "{ \"attr\": { \""
  const PatchMid := "\": \""
  const PatchTail := "\" } }"

  /** The JSON text `{ "attr": { "<key>": "<value>" } }` that carries a single attribute. */
  function AttrPatch(key: string, value: string): string {
    PatchHead + key + PatchMid + value + PatchTail
  }

  /** The digit `updateOnState` writes for the power attribute. */
  function PowerDigit(on: bool): string {
    if on then "1" else "0"
  }

  predicate QuoteFree(s: string) {
    forall i :: 0 <= i < |s| ==> s[i] != '"'
  }

  /** The index of the first double quote in `s`, or `|s|` when there is none. */
  function IndexOfQuote(s: string): (i: nat)
    ensures i <= |s|
    ensures QuoteFree(s[..i])
    ensures i < |s| ==> s[i] == '"'
  {
    if |s| == 0 then 0
    else if s[0] == '"' then 0
    else
      var j := IndexOfQuote(s[1..]);
      assert s[..j + 1] == [s[0]] + s[1..][..j];
      j + 1
  }

  /**
   * Text that needs no escaping inside a JSON string literal (section 7 of
   * RFC 8259): no double quote, no backslash and no control character below
   * U+0020. The template does not escape, so only such keys and values are
   * carried verbatim in a patch with exactly one attribute.
   */
  predicate PlainText(s: string) {
    forall i :: 0 <= i < |s| ==> s[i] != '"' && s[i] != '\\' && s[i] >= ' '
  }

  /**
   * Reads back the single key and value of an attribute patch; the partner of
   * `AttrPatch`. The key ends at the first double quote, and the text is
   * refused unless key and value are both plain, so that what it accepts is a
   * JSON object with exactly one attribute, carried verbatim.
   */
  function ParseAttrPatch(json: string): (r: Option<(string, string)>)
    ensures r.Some? ==> PlainText(r.value.0) && PlainText(r.value.1)
    ensures r.Some? ==> json == AttrPatch(r.value.0, r.value.1)
  {
    match Unwrap(json, PatchHead, PatchTail)
    case None => None
    case Some(inner) =>
      var i := IndexOfQuote(inner);
      if i + |PatchMid| <= |inner| && inner[i..i + |PatchMid|] == PatchMid then
        var key, value := inner[..i], inner[i + |PatchMid|..];
        Reassembled(inner, i, i + |PatchMid|);
        Regrouped(PatchHead, key, PatchMid, value, PatchTail);
        if PlainText(key) && PlainText(value) then Some((key, value)) else None
      else
        None
  }

  /** `s` without `head` at its front and `tail` at its back, when it has both. */
  function Unwrap(s: string, head: string, tail: string): (r: Option<string>)
    ensures r.Some? ==> s == head + r.value + tail
  {
    if |s| < |head| + |tail| || s[..|head|] != head || s[|s| - |tail|..] != tail then None
    else
      Reassembled(s, |head|, |s| - |tail|);
      Some(s[|head|..|s| - |tail|])
  }

  /** Unwrapping a wrapped text gives back exactly what was wrapped. */
  lemma UnwrapWrapped(head: string, m: string, tail: string)
    ensures Unwrap(head + m + tail, head, tail) == Some(m)
  {
    var s := head + m + tail;
    assert s[..|head|] == head;
    assert s[|s| - |tail|..] == tail;
    assert s[|head|..|s| - |tail|] == m;
  }

  lemma Regrouped(h: string, k: string, m: string, v: string, t: string)
    ensures h + (k + m + v) + t == h + k + m + v + t
  {
  }

  /** A sequence is its prefix, middle and suffix put back together. */
  lemma Reassembled(s: string, a: nat, b: nat)
    requires a <= b <= |s|
    ensures s == s[..a] + s[a..b] + s[b..]
  {
  }

  /** Every patch built from a plain key and a plain value reads back as exactly that key and value. */
  lemma {:induction false} AttrPatchRoundTrip(key: string, value: string)
    requires PlainText(key) && PlainText(value)
    ensures ParseAttrPatch(AttrPatch(key, value)) == Some((key, value))
  {
    AttrPatchSplits(key, value);
  }

  /** A patch whose value needs escaping is refused: the template would not carry it verbatim as one attribute. */
  lemma {:induction false} UnsafeValueRefused(key: string, value: string)
    requires PlainText(key) && !PlainText(value)
    ensures ParseAttrPatch(AttrPatch(key, value)) == None
  {
    AttrPatchSplits(key, value);
  }

  /**
   * A speed "level" carrying a quote renders as `{ "attr": { "speedc": "1", "fanc": "0" } }`,
   * a patch with two attributes; it is not read back as a single `speedc` pair.
   */
  lemma InjectedLevelRefused()
    ensures AttrPatch("speedc", "1\", \"fanc\": \"0") == "{ \"attr\": { \"speedc\": \"1\", \"fanc\": \"0\" } }"
    ensures ParseAttrPatch(AttrPatch("speedc", "1\", \"fanc\": \"0")) == None
  {
    var value := "1\", \"fanc\": \"0";
    assert ParseAttrPatch(AttrPatch("speedc", value)) == None by {
      assert value[1] == '"';
      UnsafeValueRefused("speedc", value);
    }
    InjectedLevelRendering();
  }

  /** The text the injected level renders as. */
  lemma InjectedLevelRendering()
    ensures AttrPatch("speedc", "1\", \"fanc\": \"0") == "{ \"attr\": { \"speedc\": \"1\", \"fanc\": \"0\" } }"
  {
  }

  /** A level holding a raw newline is refused: JSON does not allow it unescaped inside a string. */
  lemma NewlineRefused()
    ensures ParseAttrPatch(AttrPatch("speedc", "\n")) == None
  {
    var value := "\n";
    assert value[0] < ' ';
    UnsafeValueRefused("speedc", value);
  }

  /**
   * The parts `ParseAttrPatch` finds in `AttrPatch(key, value)` when the key
   * has no quote: the head and tail match, and the key and value come back.
   */
  lemma {:induction false} AttrPatchSplits(key: string, value: string)
    requires QuoteFree(key)
    ensures ParseAttrPatch(AttrPatch(key, value)) ==
      if PlainText(key) && PlainText(value) then Some((key, value)) else None
  {
    var json := AttrPatch(key, value);
    var inner := key + PatchMid + value;
    Regrouped(PatchHead, key, PatchMid, value, PatchTail);
    UnwrapWrapped(PatchHead, inner, PatchTail);
    IndexOfQuoteAt(key, PatchMid + value);
    assert inner == key + (PatchMid + value);
    assert inner[|key|..|key| + |PatchMid|] == PatchMid;
    assert inner[..|key|] == key;
    assert inner[|key| + |PatchMid|..] == value;
  }

  /** The first quote of `a + b` is the first quote of `b` when `a` has none and `b` starts with one. */
  lemma {:induction false} IndexOfQuoteAt(a: string, b: string)
    requires QuoteFree(a) && |b| > 0 && b[0] == '"'
    ensures IndexOfQuote(a + b) == |a|
  {
    if |a| == 0 {
      assert a + b == b;
    } else {
      assert (a + b)[0] == a[0];
      assert (a + b)[1..] == a[1..] + b;
      IndexOfQuoteAt(a[1..], b);
    }
  }

  /** The power patch `updateOnState` sends names `fanc` and the digit of the requested state, and nothing else. */
  lemma PowerPatchReadsBack(on: bool)
    ensures ParseAttrPatch(AttrPatch("fanc", PowerDigit(on))) == Some(("fanc", if on then "1" else "0"))
  {
    AttrPatchRoundTrip("fanc", PowerDigit(on));
  }

  /** A speed patch with a plain level names `speedc` and carries the level verbatim. */
  lemma SpeedPatchReadsBack(level: string)
    requires PlainText(level)
    ensures ParseAttrPatch(AttrPatch("speedc", level)) == Some(("speedc", level))
  {
    AttrPatchRoundTrip("speedc", level);
  }

  // ---------------------------------------------------------------------------
  // Requests sent by one write
  // ---------------------------------------------------------------------------

  /** The requests of one `updateHub`: the POST, then one state pull only when it answered 200. */
  function UpdateTrace(form: seq<FormField>, update: Reply<()>, hubHash: Option<string>): (t: seq<Request>)
    ensures |t| == if IsOk(update) then 2 else 1
    ensures t[0] == UpdateAttrRequest(form)
    ensures IsOk(update) ==> t[1] == HubStateRequest(Show(hubHash))
  {
    [UpdateAttrRequest(form)] + if IsOk(update) then [HubStateRequest(Show(hubHash))] else []
  }

  /** The index of the first accessory with the given UUID (`Array.prototype.find`). */
  function FirstWithUuid(accessories: seq<Accessory>, uuid: string): (r: Option<nat>)
    ensures r.Some? ==> r.value < |accessories| && accessories[r.value].uuid == uuid
    ensures r.Some? ==> forall j :: 0 <= j < r.value ==> accessories[j].uuid != uuid
    ensures r.None? <==> forall j :: 0 <= j < |accessories| ==> accessories[j].uuid != uuid
  {
    if |accessories| == 0 then None
    else if accessories[0].uuid == uuid then Some(0)
    else
      match FirstWithUuid(accessories[1..], uuid)
      case None => None
      case Some(i) => Some(i + 1)
  }

  // ---------------------------------------------------------------------------
  // The platform
  // ---------------------------------------------------------------------------

  class RitualsGeniePlatform {
    const email: string
    const password: string
    /** The configured platform name, copied into a new accessory's context. */
    const name: Option<string>
    /** The UUID the host generates for the name 'fan'. */
    const fanUuid: string

    /** The persisted two-key store; a key never written is absent. */
    var storage: map<string, string>
    var accountHash: Option<string>
    var hubHash: Option<string>
    /** The last accepted snapshot of the hub's state. */
    var hub: Option<Hub>
    /** The accessories the host restored from its cache. */
    var accessories: seq<Accessory>

    /** Every request sent so far, in order. */
    ghost var sent: seq<Request>
    /** Every accessory handed to the host's `registerPlatformAccessories`, in order. */
    ghost var registered: seq<Accessory>

    /** A held identifier is always the one persisted under its key. */
    ghost predicate Valid()
      reads this
    {
      (accountHash.Some? ==> Stored(storage, AccountKey) == accountHash) &&
      (hubHash.Some? ==> Stored(storage, HubKey) == hubHash)
    }

    constructor(email: string, password: string, name: Option<string>, fanUuid: string, storage: map<string, string>)
      ensures Valid()
      ensures this.email == email && this.password == password && this.name == name && this.fanUuid == fanUuid
      ensures this.storage == storage
      ensures accountHash == None && hubHash == None && hub == None
      ensures accessories == [] && sent == [] && registered == []
    {
      this.email := email;
      this.password := password;
      this.name := name;
      this.fanUuid := fanUuid;
      this.storage := storage;
      accountHash := None;
      hubHash := None;
      hub := None;
      accessories := [];
      sent := [];
      registered := [];
    }

    /** The host hands back an accessory restored from its cache. */
    method ConfigureAccessory(accessory: Accessory)
      modifies this`accessories
      ensures accessories == old(accessories) + [accessory]
    {
      accessories := accessories + [accessory];
    }

    /**
     * Startup: restore or log in, restore or fetch the hub hash, pull the
     * state once, and bind the fan accessory. Login and hub failures are
     * swallowed, so every later step runs regardless.
     */
    method OnDidFinishLaunching(login: Reply<LoginResponse>, hubs: Reply<seq<HubEnvelope>>, state: Reply<HubEnvelope>)
      returns (fan: Accessory)
      requires Valid()
      modifies this`storage, this`accountHash, this`hubHash, this`hub, this`sent, this`registered
      ensures Valid()
      ensures var account := Stored(old(storage), AccountKey);
        accountHash == if Missing(account) then GrantedAccount(login).OrElse(old(accountHash)) else account
      ensures var stored := Stored(old(storage), HubKey);
        hubHash == if Missing(stored) then GrantedHub(hubs).OrElse(old(hubHash)) else stored
      ensures storage ==
        Persist(
          Persist(old(storage), AccountKey, if Missing(Stored(old(storage), AccountKey)) then GrantedAccount(login) else None),
          HubKey, if Missing(Stored(old(storage), HubKey)) then GrantedHub(hubs) else None)
      ensures sent == old(sent)
        + (if Missing(Stored(old(storage), AccountKey)) then [LoginRequest(LoginForm(email, password))] else [])
        + (if Missing(Stored(old(storage), HubKey)) then [ListHubsRequest(Show(accountHash))] else [])
        + [HubStateRequest(Show(hubHash))]
      ensures hub == Pulled(old(hub), state)
      ensures fan.uuid == fanUuid
      ensures match FirstWithUuid(accessories, fanUuid)
        case Some(i) => fan == accessories[i] && registered == old(registered)
        case None => fan == Accessory("Fan", fanUuid, name) && registered == old(registered) + [fan]
    {
      RestoreAccount(login);
      RestoreHub(hubs);
      GetStateForHub(state);
      fan := AddFanAccessory();
    }

    /** The account step of startup: restore the stored account hash, or log in when it is null or `''`. */
    method RestoreAccount(login: Reply<LoginResponse>)
      requires Valid()
      modifies this`storage, this`accountHash, this`sent
      ensures Valid()
      ensures var account := Stored(old(storage), AccountKey);
        accountHash == if Missing(account) then GrantedAccount(login).OrElse(old(accountHash)) else account
      ensures storage ==
        Persist(old(storage), AccountKey, if Missing(Stored(old(storage), AccountKey)) then GrantedAccount(login) else None)
      ensures sent == old(sent)
        + (if Missing(Stored(old(storage), AccountKey)) then [LoginRequest(LoginForm(email, password))] else [])
    {
      var account := Stored(storage, AccountKey);
      if account == None || account.value == "" {
        Login(login);
      } else {
        accountHash := account;
      }
    }

    /** The hub step of startup: restore the stored hub hash, or list the hubs when it is null or `''`. */
    method RestoreHub(hubs: Reply<seq<HubEnvelope>>)
      requires Valid()
      modifies this`storage, this`hubHash, this`sent
      ensures Valid()
      ensures var stored := Stored(old(storage), HubKey);
        hubHash == if Missing(stored) then GrantedHub(hubs).OrElse(old(hubHash)) else stored
      ensures storage ==
        Persist(old(storage), HubKey, if Missing(Stored(old(storage), HubKey)) then GrantedHub(hubs) else None)
      ensures sent == old(sent)
        + (if Missing(Stored(old(storage), HubKey)) then [ListHubsRequest(Show(accountHash))] else [])
    {
      var stored := Stored(storage, HubKey);
      if stored == None || stored.value == "" {
        GetHub(hubs);
      } else {
        hubHash := stored;
      }
    }

    /** Binds the fan to the cached accessory with the fan UUID, or creates and registers a new one. */
    method AddFanAccessory() returns (fan: Accessory)
      modifies this`registered
      ensures fan.uuid == fanUuid
      ensures match FirstWithUuid(accessories, fanUuid)
        case Some(i) => fan == accessories[i] && registered == old(registered)
        case None => fan == Accessory("Fan", fanUuid, name) && registered == old(registered) + [fan]
    {
      var existing := FirstWithUuid(accessories, fanUuid);
      if existing.Some? {
        fan := accessories[existing.value];
      } else {
        fan := Accessory("Fan", fanUuid, name);
        registered := registered + [fan];
      }
    }

    /** Logs in; only a 200 reply with a non-null account hash changes anything, and then the field and the store agree. */
    method Login(r: Reply<LoginResponse>)
      requires Valid()
      modifies this`storage, this`accountHash, this`sent
      ensures Valid()
      ensures sent == old(sent) + [LoginRequest(LoginForm(email, password))]
      ensures accountHash == GrantedAccount(r).OrElse(old(accountHash))
      ensures storage == Persist(old(storage), AccountKey, GrantedAccount(r))
    {
      sent := sent + [LoginRequest(LoginForm(email, password))];
      if r.Answered? && r.status == 200 {
        if r.body.Some? && r.body.value.accountHash.Some? {
          storage := storage[AccountKey := r.body.value.accountHash.value];
          accountHash := r.body.value.accountHash;
        }
      }
    }

    /** Lists the account's hubs and keeps the first one's hash, in the field and in the store. */
    method GetHub(r: Reply<seq<HubEnvelope>>)
      requires Valid()
      modifies this`storage, this`hubHash, this`sent
      ensures Valid()
      ensures sent == old(sent) + [ListHubsRequest(Show(accountHash))]
      ensures hubHash == GrantedHub(r).OrElse(old(hubHash))
      ensures storage == Persist(old(storage), HubKey, GrantedHub(r))
    {
      sent := sent + [ListHubsRequest(Show(accountHash))];
      if r.Answered? && r.status == 200 {
        if r.body.Some? && |r.body.value| > 0 {
          var first := r.body.value[0];
          if first.hub.Some? {
            storage := storage[HubKey := first.hub.value.hash];
            hubHash := Some(first.hub.value.hash);
          }
        }
      }
    }

    /** Pulls the hub's state; the snapshot is replaced whole or not at all. */
    method GetStateForHub(r: Reply<HubEnvelope>)
      modifies this`hub, this`sent
      ensures sent == old(sent) + [HubStateRequest(Show(hubHash))]
      ensures hub == Pulled(old(hub), r)
    {
      sent := sent + [HubStateRequest(Show(hubHash))];
      if r.Answered? && r.status == 200 {
        if r.body.Some? && r.body.value.hub.Some? {
          hub := r.body.value.hub;
        }
      }
    }

    /** Sends the power patch for `on`. */
    method UpdateOnState(on: bool, update: Reply<()>, state: Reply<HubEnvelope>)
      modifies this`hub, this`sent
      ensures sent == old(sent) + UpdateTrace(UpdateForm(hubHash, AttrPatch("fanc", PowerDigit(on))), update, hubHash)
      ensures hub == AfterUpdate(old(hub), update, state)
    {
      var form := UpdateForm(hubHash, AttrPatch("fanc", PowerDigit(on)));
      UpdateHub(form, update, state);
    }

    /** Sends the speed patch carrying `speedValue` verbatim. */
    method UpdateFanSpeed(speedValue: string, update: Reply<()>, state: Reply<HubEnvelope>)
      modifies this`hub, this`sent
      ensures sent == old(sent) + UpdateTrace(UpdateForm(hubHash, AttrPatch("speedc", speedValue)), update, hubHash)
      ensures hub == AfterUpdate(old(hub), update, state)
    {
      var form := UpdateForm(hubHash, AttrPatch("speedc", speedValue));
      UpdateHub(form, update, state);
    }

    /** Posts an attribute patch; a 200 answer triggers exactly one pull, anything else none. */
    method UpdateHub(form: seq<FormField>, update: Reply<()>, state: Reply<HubEnvelope>)
      modifies this`hub, this`sent
      ensures sent == old(sent) + UpdateTrace(form, update, hubHash)
      ensures hub == AfterUpdate(old(hub), update, state)
    {
      sent := sent + [UpdateAttrRequest(form)];
      if update.Answered? && update.status == 200 {
        GetStateForHub(state);
      }
    }
  }

  /**
   * Startup on an empty store where the login call throws: nothing is
   * persisted under the account key, and the hub list is still requested,
   * for the account `undefined`.
   */
  method FailedLoginStartup() returns (stored: map<string, string>, ghost requests: seq<Request>)
    ensures AccountKey !in stored
    ensures |requests| == 3
    ensures requests[0] == LoginRequest(LoginForm("user@example.com", "secret"))
    ensures requests[1] == ListHubsRequest("undefined")
  {
    var platform := new RitualsGeniePlatform("user@example.com", "secret", None, "fan-uuid", map[]);
    var fan := platform.OnDidFinishLaunching(Threw, Threw, Threw);
    stored := platform.storage;
    requests := platform.sent;
  }
}
