/** The dashboard toolbar's actions. Every cursor change is followed by one
    global CLEANUP event; viewport and tracing changes dispatch nothing.
    `cleanupEvents` counts the dispatched events. */
module DashboardToolbar {
  import opened DashboardToolbarState

  function ToggleLocked(s: Settings): (r: Settings)
    ensures r.viewport.locked == !s.viewport.locked
    ensures r == s.(viewport := s.viewport.(locked := r.viewport.locked))
  {
    s.(viewport := s.viewport.(locked := !s.viewport.locked))
  }

  function ToggleScaleSync(s: Settings): (r: Settings)
    ensures r.viewport.scaleSync == !s.viewport.scaleSync
    ensures r == s.(viewport := s.viewport.(scaleSync := r.viewport.scaleSync))
  {
    s.(viewport := s.viewport.(scaleSync := !s.viewport.scaleSync))
  }

  function ToggleTracing(s: Settings): (r: Settings)
    ensures r.tracing.isEnabled == !s.tracing.isEnabled
    ensures r == s.(tracing := s.tracing.(isEnabled := r.tracing.isEnabled))
  {
    s.(tracing := s.tracing.(isEnabled := !s.tracing.isEnabled))
  }

  /** Each toggle undoes itself. */
  lemma TogglesAreInvolutions(s: Settings)
    ensures ToggleLocked(ToggleLocked(s)) == s
    ensures ToggleScaleSync(ToggleScaleSync(s)) == s
    ensures ToggleTracing(ToggleTracing(s)) == s
  {
  }

  /** Toggling one viewport flag never disturbs the other. */
  lemma TogglesAreIndependent(s: Settings)
    ensures ToggleLocked(s).viewport.scaleSync == s.viewport.scaleSync
    ensures ToggleScaleSync(s).viewport.locked == s.viewport.locked
    ensures ToggleLocked(ToggleScaleSync(s)) == ToggleScaleSync(ToggleLocked(s))
  {
  }

  class Toolbar {
    var settings: Settings
    var cleanupEvents: nat

    constructor ()
      ensures settings == Initial && cleanupEvents == 0
    {
      settings, cleanupEvents := Initial, 0;
    }

    method Reset()
      modifies this`settings
      ensures settings == Initial
    {
      settings := Initial;
    }

    method ToggleLockedViewport()
      modifies this`settings
      ensures settings == ToggleLocked(old(settings))
    {
      settings := settings.(viewport := settings.viewport.(locked := !settings.viewport.locked));
    }

    method SetLockedViewport(b: bool)
      modifies this`settings
      ensures settings == old(settings).(viewport := old(settings).viewport.(locked := b))
    {
      settings := settings.(viewport := settings.viewport.(locked := b));
    }

    method ToggleLockScaleSync()
      modifies this`settings
      ensures settings == ToggleScaleSync(old(settings))
    {
      settings := settings.(viewport := settings.viewport.(scaleSync := !settings.viewport.scaleSync));
    }

    method SetLockScaleSync(b: bool)
      modifies this`settings
      ensures settings == old(settings).(viewport := old(settings).viewport.(scaleSync := b))
    {
      settings := settings.(viewport := settings.viewport.(scaleSync := b));
    }

    /** Sets the mode and dispatches exactly one CLEANUP, even when the mode
        does not change. */
    method SetCursorMode(mode: CursorMode)
      modifies this
      ensures settings == old(settings).(cursorMode := mode)
      ensures cleanupEvents == old(cleanupEvents) + 1
    {
      settings := settings.(cursorMode := mode);
      cleanupEvents := cleanupEvents + 1;
    }

    method SetIsEnabled(b: bool)
      modifies this`settings
      ensures settings == old(settings).(tracing := old(settings).tracing.(isEnabled := b))
    {
      settings := settings.(tracing := settings.tracing.(isEnabled := b));
    }

    method ToggleIsEnabled()
      modifies this`settings
      ensures settings == ToggleTracing(old(settings))
    {
      settings := settings.(tracing := settings.tracing.(isEnabled := !settings.tracing.isEnabled));
    }

    method SetColor(color: string)
      modifies this`settings
      ensures settings == old(settings).(tracing := old(settings).tracing.(color := color))
    {
      settings := settings.(tracing := settings.tracing.(color := color));
    }

    method SetOpacity(opacity: real)
      modifies this`settings
      ensures settings == old(settings).(tracing := old(settings).tracing.(opacity := opacity))
    {
      settings := settings.(tracing := settings.tracing.(opacity := opacity));
    }

    method SetBrushSize(brushSize: real)
      modifies this`settings
      ensures settings == old(settings).(tracing := old(settings).tracing.(brushSize := brushSize))
    {
      settings := settings.(tracing := settings.tracing.(brushSize := brushSize));
    }

    method SetMode(mode: TracingMode)
      modifies this`settings
      ensures settings == old(settings).(tracing := old(settings).tracing.(mode := mode))
    {
      settings := settings.(tracing := settings.tracing.(mode := mode));
    }
  }
}
