/**
 * Session persistence: on page unload the app state is saved under a session
 * key together with a "prompt restore" flag; on the next mount the user is
 * offered the saved session if both are there. Browser storage is a map from
 * key to string; `JSON.stringify` of the collected state is a parameter (None
 * when collecting or serialising throws) and `JSON.parse` a function
 * parameter (None when it throws).
 */
module SessionPersistence {
  import opened Wrappers
  import C = Config

  const SessionKey := "liquid-art-session"
  const PromptKey := "liquid-art-prompt-restore"

  type Storage = map<string, string>

  /** What is saved: the configuration, its history and a few view flags */
  datatype SessionState = SessionState(
    config: C.Config,
    history: seq<C.Config>,
    historyIndex: int,
    isPlaying: bool,
    isGridVisible: bool,
    activeColorIndex: int)

  /** Which `setItem`, if any, throws while saving (a full storage quota, say) */
  datatype WriteFailure = NoFailure | SessionWriteThrows | PromptWriteThrows

  /** `localStorage.getItem(k)` is truthy: present and not the empty string */
  predicate Truthy(s: Storage, k: string) {
    k in s && s[k] != ""
  }

  /** The mount-time decision: offer a restore iff enabled, the flag is `'true'` and a session is saved */
  predicate ShouldPrompt(s: Storage, enabled: bool) {
    enabled && PromptKey in s && s[PromptKey] == "true" && Truthy(s, SessionKey)
  }

  /** Both keys removed, nothing else touched */
  function Cleared(s: Storage): (r: Storage)
    ensures SessionKey !in r && PromptKey !in r
    ensures forall k :: k in s && k != SessionKey && k != PromptKey ==> k in r && r[k] == s[k]
    ensures r.Keys <= s.Keys
  {
    s - {SessionKey, PromptKey}
  }

  /** The `beforeunload` handler */
  function UnloadSpec(s: Storage, enabled: bool, json: Option<string>, failure: WriteFailure): (r: Storage)
    ensures forall k :: k != SessionKey && k != PromptKey ==> (k in r <==> k in s) && (k in s ==> r[k] == s[k])
    ensures !enabled ==> SessionKey !in r && PromptKey !in r
    ensures enabled && json.Some? && failure == NoFailure ==> SessionKey in r && PromptKey in r && r[SessionKey] == json.value && r[PromptKey] == "true"
    ensures enabled && (json.None? || failure != NoFailure) ==> PromptKey !in r
  {
    if !enabled then Cleared(s)
    else match json
      case None => s - {PromptKey}
      case Some(j) =>
        match failure
        case NoFailure => s[SessionKey := j][PromptKey := "true"]
        case SessionWriteThrows => s - {PromptKey}
        case PromptWriteThrows => s[SessionKey := j] - {PromptKey}
  }

  /** The mount effect: keep both keys when prompting, otherwise drop them */
  function MountSpec(s: Storage, enabled: bool): (r: (Storage, bool))
    ensures r.1 == ShouldPrompt(s, enabled)
    ensures r.1 ==> r.0 == s
    ensures !r.1 ==> r.0 == Cleared(s)
  {
    if ShouldPrompt(s, enabled) then (s, true) else (Cleared(s), false)
  }

  /** `handleRestore`: the parsed session if there is one; a parse failure drops the session; the flag always goes */
  function RestoreSpec(s: Storage, parse: string -> Option<SessionState>): (r: (Option<SessionState>, Storage))
    ensures PromptKey !in r.1
    ensures r.0.Some? <==> Truthy(s, SessionKey) && parse(s[SessionKey]).Some?
    ensures r.0.Some? ==> r.0.value == parse(s[SessionKey]).value && r.1 == s - {PromptKey}
    ensures Truthy(s, SessionKey) && parse(s[SessionKey]).None? ==> r.1 == Cleared(s)
  {
    if !Truthy(s, SessionKey) then (None, s - {PromptKey})
    else match parse(s[SessionKey])
      case Some(state) => (Some(state), s - {PromptKey})
      case None => (None, Cleared(s))
  }

  /** The hook's state: the storage it works on, whether saving is enabled, and whether the prompt shows */
  class Session {
    var storage: Storage
    var enabled: bool
    var showRestorePrompt: bool

    /** Mounting: the prompt decision over the stored keys */
    constructor(stored: Storage, enabled: bool)
      ensures this.enabled == enabled
      ensures (storage, showRestorePrompt) == MountSpec(stored, enabled)
    {
      this.enabled := enabled;
      if ShouldPrompt(stored, enabled) {
        storage := stored;
        showRestorePrompt := true;
      } else {
        storage := Cleared(stored);
        showRestorePrompt := false;
      }
    }

    /** A new value of the `enabled` argument */
    method SetEnabled(e: bool)
      modifies this
      ensures enabled == e && storage == old(storage) && showRestorePrompt == old(showRestorePrompt)
    {
      enabled := e;
    }

    /** `handleBeforeUnload`, given what serialising the collected state produced and which write failed */
    method BeforeUnload(json: Option<string>, failure: WriteFailure)
      modifies this
      ensures storage == UnloadSpec(old(storage), enabled, json, failure)
      ensures enabled == old(enabled) && showRestorePrompt == old(showRestorePrompt)
    {
      if !enabled {
        storage := storage - {PromptKey};
        storage := storage - {SessionKey};
        return;
      }
      if json.None? {
        storage := storage - {PromptKey};
        return;
      }
      if failure == SessionWriteThrows {
        storage := storage - {PromptKey};
        return;
      }
      storage := storage[SessionKey := json.value];
      if failure == PromptWriteThrows {
        storage := storage - {PromptKey};
      } else {
        storage := storage[PromptKey := "true"];
      }
    }

    /** `handleRestore`: returns the state handed to `restore`, if any */
    method HandleRestore(parse: string -> Option<SessionState>) returns (restored: Option<SessionState>)
      modifies this
      ensures (restored, storage) == RestoreSpec(old(storage), parse)
      ensures !showRestorePrompt && enabled == old(enabled)
    {
      restored := None;
      if Truthy(storage, SessionKey) {
        var parsed := parse(storage[SessionKey]);
        if parsed.Some? {
          restored := parsed;
        } else {
          storage := storage - {SessionKey};
        }
      }
      storage := storage - {PromptKey};
      showRestorePrompt := false;
      assert old(storage) - {SessionKey} - {PromptKey} == Cleared(old(storage));
    }

    /** `handleDismiss` */
    method HandleDismiss()
      modifies this
      ensures storage == Cleared(old(storage))
      ensures !showRestorePrompt && enabled == old(enabled)
    {
      storage := storage - {PromptKey};
      storage := storage - {SessionKey};
      showRestorePrompt := false;
    }
  }

  // ---------------------------------------------------------------------

  /** A successful save of a non-empty session is offered on the next enabled mount, and never on a disabled one */
  lemma SaveThenMount(s: Storage, json: string)
    requires json != ""
    ensures ShouldPrompt(UnloadSpec(s, true, Some(json), NoFailure), true)
    ensures !ShouldPrompt(UnloadSpec(s, true, Some(json), NoFailure), false)
  {
  }

  /** A failed save, or an unload while disabled, is never offered */
  lemma FailedSaveNotOffered(s: Storage, enabled: bool, json: Option<string>, failure: WriteFailure, next: bool)
    requires !enabled || json.None? || failure != NoFailure
    ensures !ShouldPrompt(UnloadSpec(s, enabled, json, failure), next)
  {
  }

  /** Saving and then restoring hands back the saved state when parsing inverts serialising */
  lemma SaveThenRestore(s: Storage, state: SessionState, json: string, parse: string -> Option<SessionState>)
    requires json != "" && parse(json) == Some(state)
    ensures RestoreSpec(UnloadSpec(s, true, Some(json), NoFailure), parse).0 == Some(state)
  {
  }

  /** After a restore or a dismissal the next mount does not prompt */
  lemma NoSecondPrompt(s: Storage, parse: string -> Option<SessionState>, enabled: bool)
    ensures !ShouldPrompt(RestoreSpec(s, parse).1, enabled)
    ensures !ShouldPrompt(Cleared(s), enabled)
  {
  }

  /** A mount that does not prompt leaves nothing to prompt for next time */
  lemma MountSettles(s: Storage, enabled: bool)
    ensures !MountSpec(s, enabled).1 ==> !ShouldPrompt(MountSpec(s, enabled).0, true)
    ensures MountSpec(MountSpec(s, enabled).0, enabled) == MountSpec(s, enabled)
  {
    assert Cleared(Cleared(s)) == Cleared(s);
  }
}
