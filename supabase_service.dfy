/**
 * The frontend's Supabase connection: the checks on the configured project
 * URL and anonymous key, and the process-wide client created once and shared
 * by every service instance.  URL parsing and `createClient` belong to the
 * platform and the Supabase library; both are parameters here.
 */
module SupabaseService {
  import opened Wrappers

  const Placeholder: string := "YOUR_"
  const UrlPlaceholder: string := "YOUR_SUPABASE_URL"
  const KeyPlaceholder: string := "YOUR_SUPABASE_ANON_KEY"
  const RequiredProtocol: string := "https:"
  const SupabaseHost: string := "supabase.co"
  /** A key must be longer than this many characters. */
  const MinKeyLength: nat := 20

  // ---------------------------------------------------------------------------
  // Strings
  // ---------------------------------------------------------------------------

  /** The characters `String.prototype.trim` removes, for the common ones. */
  predicate IsWhitespace(c: char) {
    c == ' ' || c == '\t' || c == '\n' || c == '\r' || c == '\U{000B}' || c == '\U{000C}' ||
    c == '\U{00A0}' || c == '\U{FEFF}'
  }

  function TrimStart(s: string): string {
    if |s| > 0 && IsWhitespace(s[0]) then TrimStart(s[1..]) else s
  }

  function TrimEnd(s: string): string {
    if |s| > 0 && IsWhitespace(s[|s| - 1]) then TrimEnd(s[..|s| - 1]) else s
  }

  /** `String.prototype.trim`. */
  function Trim(s: string): string {
    TrimEnd(TrimStart(s))
  }

  /** `TrimStart` drops a whitespace prefix and stops at the first other character. */
  lemma {:induction false} TrimStartFacts(s: string)
    ensures exists i :: 0 <= i <= |s| && TrimStart(s) == s[i..] && forall k | 0 <= k < i :: IsWhitespace(s[k])
    ensures TrimStart(s) == [] || !IsWhitespace(TrimStart(s)[0])
  {
    if |s| > 0 && IsWhitespace(s[0]) {
      TrimStartFacts(s[1..]);
      var i :| 0 <= i <= |s[1..]| && TrimStart(s[1..]) == s[1..][i..] &&
               forall k | 0 <= k < i :: IsWhitespace(s[1..][k]);
      assert s[1..][i..] == s[i + 1..];
      assert forall k | 1 <= k < i + 1 :: s[k] == s[1..][k - 1];
    } else {
      assert s == s[0..];
    }
  }

  /** `TrimEnd` drops a whitespace suffix and stops at the last other character. */
  lemma {:induction false} TrimEndFacts(s: string)
    ensures exists j :: 0 <= j <= |s| && TrimEnd(s) == s[..j] && forall k | j <= k < |s| :: IsWhitespace(s[k])
    ensures TrimEnd(s) == [] || !IsWhitespace(TrimEnd(s)[|TrimEnd(s)| - 1])
  {
    if |s| > 0 && IsWhitespace(s[|s| - 1]) {
      var init := s[..|s| - 1];
      TrimEndFacts(init);
      var j :| 0 <= j <= |init| && TrimEnd(init) == init[..j] && forall k | j <= k < |init| :: IsWhitespace(init[k]);
      assert init[..j] == s[..j];
      assert forall k | j <= k < |init| :: s[k] == init[k];
    } else {
      assert s == s[..|s|];
    }
  }

  /** `TrimStart` leaves nothing exactly when the string is all whitespace. */
  lemma {:induction false} TrimStartBlank(s: string)
    ensures TrimStart(s) == [] <==> forall k | 0 <= k < |s| :: IsWhitespace(s[k])
  {
    if |s| > 0 && IsWhitespace(s[0]) {
      TrimStartBlank(s[1..]);
      assert forall k | 1 <= k < |s| :: s[k] == s[1..][k - 1];
    }
  }

  /** `TrimEnd` keeps a string that starts with a non-whitespace character non-empty. */
  lemma {:induction false} TrimEndKeepsFirst(t: string)
    requires |t| > 0 && !IsWhitespace(t[0])
    ensures TrimEnd(t) != []
  {
    if IsWhitespace(t[|t| - 1]) {
      TrimEndKeepsFirst(t[..|t| - 1]);
    }
  }

  /** A string trims to nothing exactly when it is all whitespace. */
  lemma TrimBlank(s: string)
    ensures Trim(s) == "" <==> forall k | 0 <= k < |s| :: IsWhitespace(s[k])
  {
    TrimStartBlank(s);
    if TrimStart(s) != [] {
      TrimStartFacts(s);
      TrimEndKeepsFirst(TrimStart(s));
    }
  }

  /** `s.includes(sub)`, anchored at an index so that the quantifier has something to trigger on. */
  predicate OccursAt(s: string, sub: string, i: int) {
    0 <= i && i + |sub| <= |s| && s[i..i + |sub|] == sub
  }

  predicate Contains(s: string, sub: string) {
    exists i | 0 <= i <= |s| :: OccursAt(s, sub, i)
  }

  // ---------------------------------------------------------------------------
  // Validators
  // ---------------------------------------------------------------------------

  /** `isValidSupabaseKey`. */
  function IsValidSupabaseKey(key: string): bool {
    if key == "" || Trim(key) == "" then false
    else if key == KeyPlaceholder || Contains(key, Placeholder) then false
    else |key| > MinKeyLength
  }

  /** A key is valid exactly when it is not blank, holds no placeholder marker, and is longer than 20. */
  lemma KeyValidity(key: string)
    ensures IsValidSupabaseKey(key) <==>
      (exists k :: 0 <= k < |key| && !IsWhitespace(key[k])) && !Contains(key, Placeholder) && |key| > MinKeyLength
  {
    TrimBlank(key);
    if key == KeyPlaceholder {
      assert OccursAt(key, Placeholder, 0);
    }
  }

  /** What the platform's URL parser reports about a URL, when it accepts it. */
  datatype ParsedUrl = ParsedUrl(protocol: string, hostname: string)

  /** `isValidSupabaseUrl`, with `new URL(url)` given as `parse` (`None` when it throws). */
  function IsValidSupabaseUrl(url: string, parse: string -> Option<ParsedUrl>): bool {
    if url == "" || Trim(url) == "" then false
    else if url == UrlPlaceholder || Contains(url, Placeholder) then false
    else
      match parse(url)
      case None => false
      case Some(u) => u.protocol == RequiredProtocol && Contains(u.hostname, SupabaseHost)
  }

  /**
   * A URL is valid exactly when it is not blank, holds no placeholder marker, and parses as an
   * `https:` URL whose host names supabase.co; a blank or placeholder URL is refused whatever
   * the parser would say.
   */
  lemma UrlValidity(url: string, parse: string -> Option<ParsedUrl>, other: string -> Option<ParsedUrl>)
    ensures IsValidSupabaseUrl(url, parse) <==>
      (exists k :: 0 <= k < |url| && !IsWhitespace(url[k])) && !Contains(url, Placeholder) &&
      parse(url).Some? && parse(url).value.protocol == RequiredProtocol &&
      Contains(parse(url).value.hostname, SupabaseHost)
    ensures Trim(url) == "" || Contains(url, Placeholder) ==>
      !IsValidSupabaseUrl(url, parse) && !IsValidSupabaseUrl(url, other)
  {
    TrimBlank(url);
    if url == UrlPlaceholder {
      assert OccursAt(url, Placeholder, 0);
    }
  }

  // ---------------------------------------------------------------------------
  // The shared client
  // ---------------------------------------------------------------------------

  /** A client made by `createClient` for a project URL and key. */
  datatype Client = Client(url: string, key: string)

  /** Why initialisation throws. */
  datatype InitError = InvalidConfiguration | CreateFailed(reason: string)

  /** The static `clientInstance`, shared by every `SupabaseService`. */
  class ClientRegistry {
    var clientInstance: Option<Client>

    constructor ()
      ensures clientInstance == None
    {
      clientInstance := None;
    }
  }

  /** The configured value, `(value || '').trim()`. */
  function ConfigValue(value: Option<string>): string {
    Trim(value.GetOr(""))
  }

  /** Whether a configured URL and key pass both validators. */
  predicate ValidConfig(url: Option<string>, key: Option<string>, parse: string -> Option<ParsedUrl>) {
    IsValidSupabaseUrl(ConfigValue(url), parse) && IsValidSupabaseKey(ConfigValue(key))
  }

  class Service {
    var supabaseClient: Option<Client>

    /** `initializeClient`: reuse the shared client, or validate the configuration and create it. */
    method InitializeClient(registry: ClientRegistry, url: Option<string>, key: Option<string>,
                            parse: string -> Option<ParsedUrl>,
                            createClient: (string, string) -> Result<Client, string>)
      returns (r: Result<(), InitError>)
      modifies this, registry
      ensures old(registry.clientInstance).Some? ==>
        r.Ok? && supabaseClient == old(registry.clientInstance) && registry.clientInstance == old(registry.clientInstance)
      ensures old(registry.clientInstance).None? && !ValidConfig(url, key, parse) ==>
        r == Err(InvalidConfiguration) && registry.clientInstance == None && supabaseClient == old(supabaseClient)
      ensures old(registry.clientInstance).None? && ValidConfig(url, key, parse) ==>
        match createClient(ConfigValue(url), ConfigValue(key))
        case Ok(c) => r.Ok? && registry.clientInstance == Some(c) && supabaseClient == Some(c)
        case Err(e) => r == Err(CreateFailed(e)) && registry.clientInstance == None && supabaseClient == old(supabaseClient)
      ensures r.Ok? ==> supabaseClient.Some? && supabaseClient == registry.clientInstance
    {
      if registry.clientInstance.Some? {
        supabaseClient := registry.clientInstance;
        return Ok(());
      }
      var supabaseUrl := ConfigValue(url);
      var supabaseKey := ConfigValue(key);
      var isValidUrl := IsValidSupabaseUrl(supabaseUrl, parse);
      var isValidKey := IsValidSupabaseKey(supabaseKey);
      if !isValidUrl || !isValidKey {
        return Err(InvalidConfiguration);
      }
      match createClient(supabaseUrl, supabaseKey)
      case Err(e) =>
        r := Err(CreateFailed(e));
      case Ok(client) =>
        registry.clientInstance := Some(client);
        supabaseClient := Some(client);
        r := Ok(());
    }

    /** `new SupabaseService()`: the constructor initialises at once, and throws when that throws. */
    static method Create(registry: ClientRegistry, url: Option<string>, key: Option<string>,
                         parse: string -> Option<ParsedUrl>,
                         createClient: (string, string) -> Result<Client, string>)
      returns (r: Result<Service, InitError>)
      modifies registry
      ensures r.Ok? ==> fresh(r.value) && r.value.supabaseClient.Some? && r.value.supabaseClient == registry.clientInstance
      ensures old(registry.clientInstance).Some? ==>
        r.Ok? && registry.clientInstance == old(registry.clientInstance)
      ensures old(registry.clientInstance).None? && !ValidConfig(url, key, parse) ==>
        r == Err(InvalidConfiguration) && registry.clientInstance == None
      ensures old(registry.clientInstance).None? && ValidConfig(url, key, parse) ==>
        match createClient(ConfigValue(url), ConfigValue(key))
        case Ok(c) => r.Ok? && r.value.supabaseClient == Some(c) && registry.clientInstance == Some(c)
        case Err(e) => r == Err(CreateFailed(e)) && registry.clientInstance == None
    {
      var service := new Service.Empty();
      var init := service.InitializeClient(registry, url, key, parse, createClient);
      if init.Err? {
        return Err(init.error);
      }
      return Ok(service);
    }

    /** The service before initialisation: `supabaseClient = null`. */
    constructor Empty()
      ensures supabaseClient == None
    {
      supabaseClient := None;
    }

    /**
     * The `client` getter: the instance's client, initialising first if it has none.  The
     * "not initialized" exception after a successful initialisation cannot occur, because a
     * successful `InitializeClient` always leaves a client.
     */
    method GetClient(registry: ClientRegistry, url: Option<string>, key: Option<string>,
                     parse: string -> Option<ParsedUrl>,
                     createClient: (string, string) -> Result<Client, string>)
      returns (r: Result<Client, InitError>)
      modifies this, registry
      ensures old(supabaseClient).Some? ==>
        r == Ok(old(supabaseClient).value) && supabaseClient == old(supabaseClient) &&
        registry.clientInstance == old(registry.clientInstance)
      ensures old(supabaseClient).None? && old(registry.clientInstance).Some? ==>
        r == Ok(old(registry.clientInstance).value) && supabaseClient == old(registry.clientInstance)
      ensures old(supabaseClient).None? && old(registry.clientInstance).None? && !ValidConfig(url, key, parse) ==>
        r == Err(InvalidConfiguration) && supabaseClient == None && registry.clientInstance == None
      ensures old(supabaseClient).None? && old(registry.clientInstance).None? && ValidConfig(url, key, parse) ==>
        match createClient(ConfigValue(url), ConfigValue(key))
        case Ok(c) => r == Ok(c) && supabaseClient == Some(c) && registry.clientInstance == Some(c)
        case Err(e) => r == Err(CreateFailed(e)) && supabaseClient == None && registry.clientInstance == None
      ensures r.Ok? ==> supabaseClient == Some(r.value)
    {
      if supabaseClient.None? {
        var init := InitializeClient(registry, url, key, parse, createClient);
        if init.Err? {
          return Err(init.error);
        }
      }
      r := Ok(supabaseClient.value);
    }
  }

  /**
   * Two services created one after the other share one client, and the second does not look
   * at its configuration at all: any URL, key, parser and factory give the first's client.
   */
  method SharedClient(url: Option<string>, key: Option<string>, parse: string -> Option<ParsedUrl>,
                      createClient: (string, string) -> Result<Client, string>,
                      url2: Option<string>, key2: Option<string>, parse2: string -> Option<ParsedUrl>,
                      createClient2: (string, string) -> Result<Client, string>)
    returns (first: Result<Service, InitError>, second: Result<Service, InitError>)
    ensures ValidConfig(url, key, parse) && createClient(ConfigValue(url), ConfigValue(key)).Ok? ==>
      first.Ok? && first.value.supabaseClient == Some(createClient(ConfigValue(url), ConfigValue(key)).value)
    ensures first.Ok? ==>
      second.Ok? && second.value != first.value && second.value.supabaseClient == first.value.supabaseClient
  {
    var registry := new ClientRegistry();
    first := Service.Create(registry, url, key, parse, createClient);
    second := Service.Create(registry, url2, key2, parse2, createClient2);
  }
}
