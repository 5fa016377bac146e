/**
 * IdentityOAuthEventListener: which wiki events make the manager reload the provider
 * configurations. Start-up and a newly registered provider component always do; an updated
 * or deleted page does when it is a configuration page; nothing else does, and one event
 * reloads at most once.
 */
module EventListener {
  import opened Wrappers
  import opened ConfigTools
  import opened Manager

  /** The events the listener subscribes to, and anything else it may be handed. */
  datatype Event = ApplicationReady | ComponentDescriptorAdded | DocumentUpdated | DocumentDeleted | OtherEvent

  /**
   * The reload flag onEvent computes: raised by start-up and provider-registration events, and
   * by a page update or deletion whose (non-null) page holds configuration.
   */
  function ShouldReload(e: Event, source: Option<Document>, tools: ConfigTools): (reload: bool)
    reads tools
  {
    var reload := e.ApplicationReady? || e.ComponentDescriptorAdded?;
    if (e.DocumentUpdated? || e.DocumentDeleted?) && source.Some? && tools.HasIOConfigObject(source.value) then true
    else reload
  }

  /** Start-up and provider registration reload whatever the source. */
  lemma LifecycleEventsReload(e: Event, source: Option<Document>, tools: ConfigTools)
    requires e.ApplicationReady? || e.ComponentDescriptorAdded?
    ensures ShouldReload(e, source, tools)
  {
  }

  /** A page event reloads exactly when its page is present and holds configuration. */
  lemma DocumentEventsReload(e: Event, source: Option<Document>, tools: ConfigTools)
    requires e.DocumentUpdated? || e.DocumentDeleted?
    ensures ShouldReload(e, source, tools) <==> source.Some? && tools.HasIOConfigObject(source.value)
  {
  }

  /** No other event reloads. */
  lemma OtherEventsIgnored(source: Option<Document>, tools: ConfigTools)
    ensures !ShouldReload(OtherEvent, source, tools)
  {
  }

  /**
   * onEvent: one reloadConfig call when the flag is raised, none otherwise; a reload that
   * fails reaches the caller and leaves the manager's state and registry as they were.
   */
  method OnEvent(e: Event, source: Option<Document>, tools: ConfigTools, manager: Manager, env: Env)
    returns (r: Outcome<()>, reloads: nat)
    requires manager.Valid()
    modifies manager, manager.objects
    ensures manager.Valid()
    ensures reloads <= 1 && (reloads == 1 <==> ShouldReload(e, source, tools))
    ensures reloads == 0 ==> r == Ok(()) && unchanged(manager, manager.objects)
    ensures reloads == 1 && old(manager.state) != Running && old(manager.state) != Initialized ==>
      r == Fail(IllegalLifeCycle) && unchanged(manager)
    ensures reloads == 1 && (old(manager.state) == Running || old(manager.state) == Initialized) ==>
      var loaded := LoadAll(env.wiki, env.wiki.providerPages, None);
      (r.Fail? <==> loaded.Fail?)
      && (loaded.Ok? ==> manager.state == Running
                         && manager.Holds(Rebuilt(loaded.value, env.instantiate, DataUrls(env.wiki))))
      && (loaded.Fail? ==> manager.state == old(manager.state) && manager.providers == old(manager.providers)
                           && manager.loginCodes == old(manager.loginCodes)
                           && manager.loginSyntaxes == old(manager.loginSyntaxes))
  {
    var reloadConfig := false;
    if e.ApplicationReady? || e.ComponentDescriptorAdded? {
      reloadConfig := true;
    }
    if e.DocumentUpdated? || e.DocumentDeleted? {
      if source.Some? && tools.HasIOConfigObject(source.value) {
        reloadConfig := true;
      }
    }
    r, reloads := Ok(()), 0;
    if reloadConfig {
      r := manager.ReloadConfig(env);
      reloads := 1;
    }
  }
}
