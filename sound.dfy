/**
 * The sound hook of `src/hooks/useSound.ts`: a persisted mute flag, and two cues
 * that are silently skipped when muted, disabled, or when no audio context exists.
 */
module Sound {
  import opened Storage

  /** The two cues: a single click tone and the three-note success chime. */
  datatype Cue = Click | Success

  /** The early-return guard shared by both cues. */
  predicate Silenced(isMuted: bool, enabled: bool) {
    isMuted || !enabled
  }

  class SoundHook {
    var isMuted: bool
    const enabled: bool
    /** Whether an audio context has been created (`audioContextRef.current`). */
    var hasContext: bool
    /** Every cue handed to the audio context so far. */
    var emitted: seq<Cue>

    /**
     * Mounting: the flag is read from the store (muted when absent), and the
     * persistence effect writes it back.
     */
    constructor (store: Store, enabled: bool)
      requires WellTyped(store.entries)
      modifies store
      ensures this.enabled == enabled
      ensures isMuted == GetMuted(old(store.entries))
      ensures !hasContext && emitted == []
      ensures store.entries == AfterSaveMuted(old(store.entries), isMuted)
    {
      var muted := true;
      if AudioMutedKey in store.entries {
        muted := store.entries[AudioMutedKey].b;
      }
      this.enabled := enabled;
      isMuted, hasContext, emitted := muted, false, [];
      new;
      store.SetItem(AudioMutedKey, Flag(isMuted));
    }

    /** `toggleMute`, followed by the persistence effect that the change triggers. */
    method ToggleMute(store: Store)
      requires WellTyped(store.entries)
      modifies this, store
      ensures isMuted == !old(isMuted)
      ensures store.entries == AfterSaveMuted(old(store.entries), isMuted)
      ensures GetMuted(store.entries) == isMuted
      ensures hasContext == old(hasContext) && emitted == old(emitted)
    {
      isMuted := !isMuted;
      store.SetItem(AudioMutedKey, Flag(isMuted));
    }

    /**
     * The body shared by `playClick` and `playSuccess`: return when silenced; create
     * the context if the environment offers a constructor; return when there is none;
     * otherwise emit the cue.
     */
    method Play(cue: Cue, contextAvailable: bool)
      modifies this
      ensures Silenced(isMuted, enabled) ==> hasContext == old(hasContext) && emitted == old(emitted)
      ensures !Silenced(isMuted, enabled) ==> hasContext == (old(hasContext) || contextAvailable)
      ensures emitted == if !Silenced(isMuted, enabled) && hasContext then old(emitted) + [cue] else old(emitted)
      ensures isMuted == old(isMuted)
    {
      if isMuted || !enabled {
        return;
      }
      if !hasContext && contextAvailable {
        hasContext := true;
      }
      if !hasContext {
        return;
      }
      emitted := emitted + [cue];
    }

    method PlayClick(contextAvailable: bool)
      modifies this
      ensures emitted == if !Silenced(isMuted, enabled) && hasContext then old(emitted) + [Click] else old(emitted)
      ensures Silenced(isMuted, enabled) ==> hasContext == old(hasContext)
      ensures !Silenced(isMuted, enabled) ==> hasContext == (old(hasContext) || contextAvailable)
      ensures isMuted == old(isMuted)
    {
      Play(Click, contextAvailable);
    }

    method PlaySuccess(contextAvailable: bool)
      modifies this
      ensures emitted == if !Silenced(isMuted, enabled) && hasContext then old(emitted) + [Success] else old(emitted)
      ensures Silenced(isMuted, enabled) ==> hasContext == old(hasContext)
      ensures !Silenced(isMuted, enabled) ==> hasContext == (old(hasContext) || contextAvailable)
      ensures isMuted == old(isMuted)
    {
      Play(Success, contextAvailable);
    }
  }

  /** A fresh page is muted and silent; toggling twice restores both the flag and the stored value. */
  method SampleSession(store: Store) returns (hook: SoundHook)
    requires store.entries == map[]
    modifies store
    ensures hook.isMuted && hook.emitted == [Click]
    ensures WellTyped(store.entries) && GetMuted(store.entries)
  {
    hook := new SoundHook(store, true);
    assert hook.isMuted;
    hook.PlayClick(true);
    hook.PlaySuccess(true);
    assert hook.emitted == [];
    hook.ToggleMute(store);
    assert !hook.isMuted && GetMuted(store.entries) == false;
    hook.PlayClick(false);
    assert hook.emitted == [];
    hook.PlayClick(true);
    assert hook.emitted == [Click];
    hook.ToggleMute(store);
    assert hook.isMuted && GetMuted(store.entries);
  }
}
