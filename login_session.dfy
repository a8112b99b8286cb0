/** The sign-in page's session rules: a username must be given before the wallet is
    connected; a successful connection is saved to session storage, and also to local
    storage when "remember me" is ticked; disconnecting forgets it in both; on mount a
    saved session is restored, local storage first, and the wallet counts as connected
    again only when it reconnects to the saved address.

    The wallet SDK's `connect` and `disconnect` calls are inputs (what they returned or
    whether they threw), and the two browser stores are maps from keys to the parsed
    items. */
module LogInSession {
  import opened Primitives

  /** The storage key of a saved session. */
  const SessionKey: string := "starknetSession"

  const UsernameRequired: string := "Please enter a username before connecting your wallet"
  const NoConnection: string := "No wallet connection established"
  const ConnectFailed: string := "Failed to connect wallet"
  const DefaultWalletName: string := "Starknet Wallet"

  /** A stored item as the page reads it back with `JSON.parse`. */
  datatype StoredItem =
      /** a JSON object with (possibly missing) `username` and `walletAddress` */
    | Record(username: Option<string>, walletAddress: Option<string>)
      /** text that `JSON.parse` rejects or that parses to `null`: reading it throws */
    | Unreadable
      /** the empty string, which the page's `if` treats like a missing item */
    | EmptyText

  /** `localStorage` or `sessionStorage`. */
  type Store = map<string, StoredItem>

  /** `getItem(SessionKey)` is truthy: there is a non-empty item under the key. */
  predicate HasSession(store: Store)
  {
    SessionKey in store && store[SessionKey] != EmptyText
  }

  datatype Wallet = Wallet(name: Option<string>)
  datatype Connection = Connection(wallet: Option<Wallet>, account: Option<string>)

  /** What an awaited `connect` call did: it threw an error with the given message
      ("" when the error has none), it rejected with `null` or `undefined` (so reading
      the error's `message` throws again inside the `catch`), or it resolved, to `null`
      or to a connection. */
  datatype ConnectResult =
    | Threw(message: string)
    | ThrewNothing
    | Resolved(connection: Option<Connection>)

  /** A connection is usable when it exists, has a wallet and a non-empty account. */
  predicate Usable(c: ConnectResult)
  {
    c.Resolved? && c.connection.Some? && c.connection.value.wallet.Some? &&
    Truthy(c.connection.value.account)
  }

  /** The account of a usable connection. */
  function AccountOf(c: ConnectResult): (a: string)
    requires Usable(c)
    ensures a != "" && c.connection.value.account == Some(a)
  {
    c.connection.value.account.value
  }

  /** The wallet's name, or "Starknet Wallet" when it has none. */
  function WalletNameOf(c: ConnectResult): (name: string)
    requires Usable(c)
    ensures name != ""
    ensures Truthy(c.connection.value.wallet.value.name) ==> name == c.connection.value.wallet.value.name.value
    ensures !Truthy(c.connection.value.wallet.value.name) ==> name == DefaultWalletName
  {
    OrDefault(c.connection.value.wallet.value.name, DefaultWalletName)
  }

  /** The page's state hooks and the two stores. */
  datatype LoginState = LoginState(
    username: string, displayUsername: string, rememberMe: bool,
    walletAddress: string, isConnecting: bool, error: string,
    isWalletConnected: bool, walletName: string,
    local: Store, session: Store)

  /** The state on mount, before the saved session is looked at. */
  function Mounted(local: Store, session: Store): LoginState
  {
    LoginState("", "", false, "", false, "", false, "", local, session)
  }

  /** `saveSession(username, walletAddress)`: the pair always goes to session storage
      and, when "remember me" is ticked, to local storage too; nothing else changes. */
  function SaveSessionTo(s: LoginState, username: string, walletAddress: string): (r: LoginState)
    ensures r.session == s.session[SessionKey := Record(Some(username), Some(walletAddress))]
    ensures s.rememberMe ==> r.local == s.local[SessionKey := Record(Some(username), Some(walletAddress))]
    ensures !s.rememberMe ==> r.local == s.local
    ensures r == s.(local := r.local, session := r.session)
  {
    var item := Record(Some(username), Some(walletAddress));
    var local := if s.rememberMe then s.local[SessionKey := item] else s.local;
    s.(local := local, session := s.session[SessionKey := item])
  }

  /** The part of `handleWalletConnect` before the `connect` call: a blank username
      only sets the error; otherwise the error is cleared and the page is connecting. */
  function BeginConnect(s: LoginState): (r: LoginState)
    ensures Blank(s.username) ==> r == s.(error := UsernameRequired)
    ensures !Blank(s.username) ==> r == s.(isConnecting := true, error := "")
  {
    TrimEmptyIffBlank(s.username);
    if Trim(s.username) == "" then s.(error := UsernameRequired)
    else s.(isConnecting := true, error := "")
  }

  /** `handleWalletConnect` with the outcome of its `connect` call. A blank username
      stops before any connection attempt; otherwise the page is not connecting
      afterwards, whatever the outcome. A failed or unusable connection only records
      the error; a usable one connects the wallet under the typed username and saves
      the session. */
  function Connect(s: LoginState, result: ConnectResult): (r: LoginState)
    ensures Blank(s.username) ==> r == s.(error := UsernameRequired)
    ensures !Blank(s.username) ==> !r.isConnecting
    ensures !Blank(s.username) && result.Threw? ==>
      r == s.(isConnecting := false,
              error := if result.message != "" then result.message else ConnectFailed)
    ensures !Blank(s.username) && result.ThrewNothing? ==> r == s.(isConnecting := false, error := "")
    ensures !Blank(s.username) && result.Resolved? && !Usable(result) ==>
      r == s.(isConnecting := false, error := NoConnection)
    ensures !Blank(s.username) && Usable(result) ==>
      r.isWalletConnected && r.walletAddress == AccountOf(result) &&
      r.walletName == WalletNameOf(result) && r.displayUsername == s.username &&
      r.username == s.username && r.rememberMe == s.rememberMe && r.error == "" &&
      r.session == s.session[SessionKey := Record(Some(s.username), Some(AccountOf(result)))] &&
      r.local == (if s.rememberMe then s.local[SessionKey := Record(Some(s.username), Some(AccountOf(result)))]
                  else s.local)
  {
    TrimEmptyIffBlank(s.username);
    if Trim(s.username) == "" then BeginConnect(s)
    else FinishConnect(BeginConnect(s), result)
  }

  /** The part of `handleWalletConnect` after the `connect` call resolved or threw,
      including its `finally`. A rejection without a value fails inside the `catch`
      before the error is set, so only the `finally` takes effect. */
  function FinishConnect(s: LoginState, result: ConnectResult): (r: LoginState)
    ensures !r.isConnecting
    ensures result.Threw? ==>
      r == s.(isConnecting := false,
              error := if result.message != "" then result.message else ConnectFailed)
    ensures result.ThrewNothing? ==> r == s.(isConnecting := false)
    ensures result.Resolved? && !Usable(result) ==> r == s.(isConnecting := false, error := NoConnection)
    ensures Usable(result) ==>
      r == s.(isConnecting := false, isWalletConnected := true, walletAddress := AccountOf(result),
              walletName := WalletNameOf(result), displayUsername := s.username,
              session := s.session[SessionKey := Record(Some(s.username), Some(AccountOf(result)))],
              local := if s.rememberMe then s.local[SessionKey := Record(Some(s.username), Some(AccountOf(result)))]
                       else s.local)
  {
    if result.Threw? then
      s.(error := if result.message != "" then result.message else ConnectFailed,
         isConnecting := false)
    else if result.ThrewNothing? then
      s.(isConnecting := false)
    else if !Usable(result) then
      s.(error := NoConnection, isConnecting := false)
    else
      var connected := s.(walletAddress := AccountOf(result),
                          walletName := WalletNameOf(result),
                          isWalletConnected := true,
                          displayUsername := s.username);
      SaveSessionTo(connected, s.username, AccountOf(result)).(isConnecting := false)
  }

  /** `handleDisconnect`, given whether the SDK's `disconnect` threw: on success the
      wallet fields are cleared and the session key is removed from both stores; if it
      threw, nothing changes. */
  function Disconnect(s: LoginState, threw: bool): (r: LoginState)
    ensures threw ==> r == s
    ensures !threw ==>
      r.walletAddress == "" && r.walletName == "" && !r.isWalletConnected &&
      !HasSession(r.local) && !HasSession(r.session) &&
      r.local == s.local - {SessionKey} && r.session == s.session - {SessionKey} &&
      r.username == s.username && r.displayUsername == s.displayUsername &&
      r.rememberMe == s.rememberMe && r.error == s.error && r.isConnecting == s.isConnecting
  {
    if threw then s
    else s.(walletAddress := "", walletName := "", isWalletConnected := false,
            local := s.local - {SessionKey}, session := s.session - {SessionKey})
  }

  /** The item `checkExistingSession` reads: the local one when there is one, otherwise
      the session one. */
  function SavedItem(s: LoginState): (item: Option<StoredItem>)
    ensures HasSession(s.local) ==> item == Some(s.local[SessionKey])
    ensures !HasSession(s.local) && HasSession(s.session) ==> item == Some(s.session[SessionKey])
    ensures item.None? <==> !HasSession(s.local) && !HasSession(s.session)
  {
    if HasSession(s.local) then Some(s.local[SessionKey])
    else if HasSession(s.session) then Some(s.session[SessionKey])
    else None
  }

  /** The reconnection confirms a saved record: it is usable and its account is the
      record's `walletAddress`. */
  predicate Reconnects(item: StoredItem, reconnect: ConnectResult)
  {
    item.Record? && Usable(reconnect) && item.walletAddress == Some(AccountOf(reconnect))
  }

  /** `checkExistingSession`, with the outcome of its reconnection attempt. A readable
      saved session restores the username; only one from local storage ticks "remember
      me"; the wallet is marked connected, with the reconnected address and name, only
      when the reconnection confirms the saved address, and otherwise the wallet fields
      keep their values. No store is written, and an unreadable item changes nothing. */
  function RestoreSession(s: LoginState, reconnect: ConnectResult): (r: LoginState)
    ensures r.local == s.local && r.session == s.session
    ensures SavedItem(s).None? || SavedItem(s) == Some(Unreadable) ==> r == s
    ensures SavedItem(s).Some? && SavedItem(s).value.Record? ==>
      r.username == OrDefault(SavedItem(s).value.username, "") &&
      r.rememberMe == (s.rememberMe || HasSession(s.local))
    ensures r.rememberMe != s.rememberMe ==> HasSession(s.local) && r.rememberMe
    ensures r.isWalletConnected != s.isWalletConnected ==>
      r.isWalletConnected && Usable(reconnect) &&
      SavedItem(s).Some? && SavedItem(s).value.Record? &&
      SavedItem(s).value.walletAddress == Some(r.walletAddress) && r.walletAddress == AccountOf(reconnect)
    ensures SavedItem(s).Some? && SavedItem(s).value.Record? && !Reconnects(SavedItem(s).value, reconnect) ==>
      r == s.(username := r.username, rememberMe := r.rememberMe)
    ensures SavedItem(s).Some? && Reconnects(SavedItem(s).value, reconnect) ==>
      r == s.(username := r.username, rememberMe := r.rememberMe, isWalletConnected := true,
              walletAddress := AccountOf(reconnect), walletName := WalletNameOf(reconnect))
    ensures r.displayUsername == s.displayUsername && r.error == s.error &&
      r.isConnecting == s.isConnecting
  {
    if HasSession(s.local) then Restore(s, s.local[SessionKey], true, reconnect)
    else if HasSession(s.session) then Restore(s, s.session[SessionKey], false, reconnect)
    else s
  }

  /** One branch of `checkExistingSession`: read the item, restore the username (and
      tick "remember me" for a remembered session), then try to reconnect; the wallet
      fields change only when the reconnection confirms the saved address. */
  function Restore(s: LoginState, item: StoredItem, remembered: bool, reconnect: ConnectResult): (r: LoginState)
    ensures !item.Record? ==> r == s
    ensures item.Record? && !Reconnects(item, reconnect) ==>
      r == s.(username := OrDefault(item.username, ""), rememberMe := s.rememberMe || remembered)
    ensures Reconnects(item, reconnect) ==>
      r == s.(username := OrDefault(item.username, ""), rememberMe := s.rememberMe || remembered,
              walletAddress := AccountOf(reconnect), walletName := WalletNameOf(reconnect),
              isWalletConnected := true)
  {
    match item
    case Record(username, walletAddress) =>
      var named := s.(username := OrDefault(username, ""),
                      rememberMe := if remembered then true else s.rememberMe);
      if Usable(reconnect) && Some(AccountOf(reconnect)) == walletAddress then
        named.(walletAddress := AccountOf(reconnect), walletName := WalletNameOf(reconnect),
               isWalletConnected := true)
      else named
    case _ => s
  }

  /** A session saved with "remember me" ticked survives a reload: a fresh mount over
      the stores it left, reconnecting to the same account, restores the username, the
      ticked box and the connected wallet. */
  lemma RememberedSessionRestores(local: Store, session: Store, username: string,
                                  result: ConnectResult, reconnect: ConnectResult)
    requires !Blank(username) && Usable(result) && Usable(reconnect)
    requires AccountOf(reconnect) == AccountOf(result)
    ensures var signedIn := Connect(Mounted(local, session).(username := username, rememberMe := true), result);
      var reloaded := RestoreSession(Mounted(signedIn.local, signedIn.session), reconnect);
      reloaded.isWalletConnected && reloaded.walletAddress == AccountOf(result) &&
      reloaded.username == username && reloaded.rememberMe
  {
    var signedIn := Connect(Mounted(local, session).(username := username, rememberMe := true), result);
    assert HasSession(signedIn.local);
    assert username != "" by {
      assert Blank("");
    }
  }

  /** Without "remember me", and with nothing under the key in local storage, a reload
      restores the session from session storage and leaves the box unticked. */
  lemma UnrememberedSessionRestores(local: Store, session: Store, username: string,
                                    result: ConnectResult, reconnect: ConnectResult)
    requires !Blank(username) && Usable(result) && Usable(reconnect)
    requires AccountOf(reconnect) == AccountOf(result)
    requires !HasSession(local)
    ensures var signedIn := Connect(Mounted(local, session).(username := username), result);
      var reloaded := RestoreSession(Mounted(signedIn.local, signedIn.session), reconnect);
      reloaded.isWalletConnected && reloaded.walletAddress == AccountOf(result) &&
      reloaded.username == username && !reloaded.rememberMe
  {
    var signedIn := Connect(Mounted(local, session).(username := username), result);
    assert !HasSession(signedIn.local) && HasSession(signedIn.session);
    assert username != "" by {
      assert Blank("");
    }
  }

  /** After a successful disconnect a reload restores nothing, whatever the wallet
      would reconnect to. */
  lemma DisconnectForgetsSession(s: LoginState, reconnect: ConnectResult)
    ensures var out := Disconnect(s, false);
      RestoreSession(Mounted(out.local, out.session), reconnect) == Mounted(out.local, out.session)
  {
  }

  /** The page: the state hooks and the two stores as fields, the handlers as methods. */
  class LogInPage {
    var username: string
    var displayUsername: string
    var rememberMe: bool
    var walletAddress: string
    var isConnecting: bool
    var error: string
    var isWalletConnected: bool
    var walletName: string
    var local: Store
    var session: Store

    function State(): LoginState
      reads this
    {
      LoginState(username, displayUsername, rememberMe, walletAddress, isConnecting, error,
                 isWalletConnected, walletName, local, session)
    }

    constructor (localStorage: Store, sessionStorage: Store)
      ensures State() == Mounted(localStorage, sessionStorage)
    {
      username, displayUsername, rememberMe := "", "", false;
      walletAddress, isConnecting, error := "", false, "";
      isWalletConnected, walletName := false, "";
      local, session := localStorage, sessionStorage;
    }

    /** The mount effect. */
    method CheckExistingSession(reconnect: ConnectResult)
      modifies this
      ensures State() == RestoreSession(old(State()), reconnect)
    {
      var item: StoredItem;
      var remembered: bool;
      if HasSession(local) {
        item, remembered := local[SessionKey], true;
      } else if HasSession(session) {
        item, remembered := session[SessionKey], false;
      } else {
        return;
      }
      if item.Record? {
        username := OrDefault(item.username, "");
        if remembered {
          rememberMe := true;
        }
        if Usable(reconnect) && Some(AccountOf(reconnect)) == item.walletAddress {
          walletAddress := AccountOf(reconnect);
          walletName := WalletNameOf(reconnect);
          isWalletConnected := true;
        }
      }
    }

    /** The username field's change handler. */
    method SetUsername(text: string)
      modifies this
      ensures State() == old(State()).(username := text)
    {
      username := text;
    }

    /** The "remember me" checkbox's change handler. */
    method SetRememberMe(checked: bool)
      modifies this
      ensures State() == old(State()).(rememberMe := checked)
    {
      rememberMe := checked;
    }

    method SaveSession(name: string, address: string)
      modifies this
      ensures State() == SaveSessionTo(old(State()), name, address)
    {
      var item := Record(Some(name), Some(address));
      if rememberMe {
        local := local[SessionKey := item];
      }
      session := session[SessionKey := item];
    }

    method HandleWalletConnect(result: ConnectResult)
      modifies this
      ensures State() == Connect(old(State()), result)
    {
      ghost var before := State();
      if Trim(username) == "" {
        error := UsernameRequired;
        assert State() == BeginConnect(before);
        return;
      }
      isConnecting := true;
      error := "";
      assert State() == BeginConnect(before);
      CompleteConnect(result);
    }

    /** What runs once the `connect` call has resolved or thrown. */
    method CompleteConnect(result: ConnectResult)
      modifies this
      ensures State() == FinishConnect(old(State()), result)
    {
      if result.Threw? {
        error := if result.message != "" then result.message else ConnectFailed;
      } else if result.ThrewNothing? {
      } else if !Usable(result) {
        error := NoConnection;
      } else {
        var address := AccountOf(result);
        walletAddress := address;
        walletName := WalletNameOf(result);
        isWalletConnected := true;
        displayUsername := username;
        SaveSession(username, address);
      }
      isConnecting := false;
    }

    method HandleDisconnect(threw: bool)
      modifies this
      ensures State() == Disconnect(old(State()), threw)
    {
      if !threw {
        walletAddress := "";
        walletName := "";
        isWalletConnected := false;
        local := local - {SessionKey};
        session := session - {SessionKey};
      }
    }
  }
}
