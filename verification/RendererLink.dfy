/** Exclusion of OpenGL rendering and Local Link in a Nintendo DS session, across option changes
    whose transitions may fail at every point. */
module RendererLink {
  import opened Wrappers

  datatype Renderer = Software | OpenGl

  /** What a machine of the pair renders with; a failed task leaves it unusable until restored. */
  datatype Video = OnSoftware | OnOpenGl | Broken | Destroyed

  function VideoFor(r: Renderer): Video {
    if r == OpenGl then OnOpenGl else OnSoftware
  }

  class NdsPair {
    var renderer: Renderer
    var link: bool
    /** False once the pair is poisoned; between calls no frame is running. */
    var idle: bool
    var context: bool
    var first: Video
    var second: Video
    /** Tasks and link changes that failed so far for reasons outside this code. */
    ghost var failures: nat
    /** Link changes among them. */
    ghost var refusals: nat

    /** An idle pair renders both machines with the renderer it reports, owns a graphics context
        exactly for OpenGL, and never links while it uses OpenGL. */
    predicate Consistent()
      reads this
    {
      idle ==>
        && first == second == VideoFor(renderer)
        && context == (renderer == OpenGl)
        && !(renderer == OpenGl && link)
    }

    constructor ()
      ensures Consistent() && idle && renderer == Software && !link && failures == refusals == 0
    {
      renderer, link, idle, context, first, second := Software, false, true, false, OnSoftware, OnSoftware;
      failures, refusals := 0, 0;
    }

    /** Some task on a graphics worker: it may fail at any time. */
    method Task() returns (ok: bool)
      modifies this`failures
      ensures failures == old(failures) + if ok then 0 else 1
    {
      ok := *;
      if !ok {
        failures := failures + 1;
      }
    }

    /** Installs a renderer on one machine. */
    method Install(machine: nat, r: Renderer) returns (ok: bool)
      requires machine < 2
      modifies this`first, this`second, this`failures
      ensures failures == old(failures) + if ok then 0 else 1
      ensures machine == 0 ==> second == old(second) && first == if ok then VideoFor(r) else Broken
      ensures machine == 1 ==> first == old(first) && second == if ok then VideoFor(r) else Broken
    {
      ok := Task();
      var video := if ok then VideoFor(r) else Broken;
      first, second := if machine == 0 then video else first, if machine == 1 then video else second;
    }

    /** `RestoreSoftwareOrTerminalize`. */
    method RestoreOrTerminalize(machine: nat) returns (restored: bool)
      requires machine < 2
      modifies this`first, this`second, this`failures
      ensures failures >= old(failures) && (!restored ==> failures > old(failures))
      ensures machine == 0 ==> second == old(second) && first == if restored then OnSoftware else Destroyed
      ensures machine == 1 ==> first == old(first) && second == if restored then OnSoftware else Destroyed
    {
      restored := Install(machine, Software);
      if !restored {
        var destroyed := Task();
        first, second := if machine == 0 then Destroyed else first, if machine == 1 then Destroyed else second;
      }
    }

    method Poison()
      modifies this`idle, this`renderer
      ensures !idle && renderer == OpenGl
    {
      idle, renderer := false, OpenGl;
    }

    /** Both machines to OpenGL, or both back on software, or a poisoned pair. */
    method Activate() returns (ok: bool)
      requires Consistent() && idle && renderer == Software && !link
      modifies this
      ensures Consistent() && link == old(link) && failures >= old(failures) && refusals == old(refusals)
      ensures ok ==> idle && renderer == OpenGl
      ensures !ok ==> failures > old(failures) && (idle <==> renderer == Software)
    {
      ok := Task();
      if !ok {
        return;
      }
      context := true;
      ok := Task();
      if !ok {
        context := false;
        return;
      }
      var machine := 0;
      while machine < 2
        invariant machine <= 2 && context && idle && renderer == Software && !link
        invariant failures == old(failures) && refusals == old(refusals)
        invariant first == (if machine > 0 then OnOpenGl else OnSoftware)
        invariant second == (if machine > 1 then OnOpenGl else OnSoftware)
      {
        ok := Install(machine, OpenGl);
        if !ok {
          var valid := RestoreOrTerminalize(0);
          if machine == 1 {
            var other := RestoreOrTerminalize(1);
            valid := valid && other;
          }
          context := false;
          if !valid {
            Poison();
          }
          return;
        }
        machine := machine + 1;
      }
      renderer, ok := OpenGl, true;
    }

    /** Both machines to software, or a poisoned pair. */
    method Deactivate() returns (ok: bool)
      requires Consistent() && idle && renderer == OpenGl
      modifies this
      ensures Consistent() && link == old(link) && failures >= old(failures) && refusals == old(refusals)
      ensures ok ==> idle && renderer == Software
      ensures !ok ==> failures > old(failures) && !idle && renderer == OpenGl
    {
      var valid := true;
      var restored := 0;
      var failed := false;
      while restored < 2 && !failed
        invariant restored <= 2 && idle && renderer == OpenGl && link == old(link) && refusals == old(refusals)
        invariant failures >= old(failures) && (failed ==> restored < 2 && failures > old(failures))
        invariant restored > 0 ==> first == OnSoftware
        invariant restored > 1 ==> second == OnSoftware
        decreases 2 - restored, !failed
      {
        var done := Install(restored, Software);
        if done { restored := restored + 1; } else { failed := true; }
      }
      if restored < 1 {
        valid := RestoreOrTerminalize(0);
      }
      if restored < 2 {
        var other := RestoreOrTerminalize(1);
        valid := valid && other;
      }
      context := false;
      if valid {
        renderer := Software;
      } else {
        Poison();
      }
      ok := valid;
    }

    /** `SetVideoRenderer`. */
    method SetVideoRenderer(r: Renderer) returns (ok: bool)
      requires Consistent()
      modifies this
      ensures Consistent() && link == old(link) && failures >= old(failures) && refusals == old(refusals)
      ensures ok ==> idle && renderer == r
      ensures !old(idle) ==> !ok && !idle && renderer == old(renderer)
      // A refused activation leaves a sound software pair or a poisoned one, recognisable by its renderer.
      ensures !ok && old(idle) ==> r == OpenGl || !idle
      ensures !ok && old(idle) ==> (idle <==> renderer == Software)
      ensures !ok && old(idle) && !old(link) ==> failures > old(failures)
      ensures old(idle) && !idle ==> failures > old(failures)
    {
      if !idle {
        return false;
      }
      if r == renderer {
        return true;
      }
      if r == OpenGl {
        if link {
          return false;
        }
        ok := Activate();
      } else {
        ok := Deactivate();
      }
    }

    /** `SetLink`: refused while OpenGL is in use. */
    method SetLink(enabled: bool) returns (ok: bool)
      requires Consistent()
      modifies this`link, this`failures, this`refusals
      ensures Consistent() && link == if ok then enabled else old(link)
      ensures enabled && renderer == OpenGl ==> !ok && failures == old(failures) && refusals == old(refusals)
      ensures !(enabled && renderer == OpenGl) ==>
                && failures == old(failures) + (if ok then 0 else 1)
                && refusals == old(refusals) + (if ok then 0 else 1)
    {
      ok := false;
      if !(enabled && renderer == OpenGl) {
        ok := Task();
        link := if ok then enabled else link;
        refusals := if ok then refusals else refusals + 1;
      }
    }

    /** A frame that misses its deadline or fails on a graphics worker, or a failed reset. */
    method FramePoisons()
      requires Consistent()
      modifies this`idle, this`link
      ensures Consistent() && !idle && !link
    {
      idle, link := false, false;
    }
  }

  datatype Wish = Wish(link: bool, renderer: Renderer)

  function Or<T>(o: Option<T>, default: T): T {
    if o.Some? then o.value else default
  }

  /** Which of two conflicting wishes is kept: the link when it alone was just switched on. */
  function Settle(w: Wish, linkChanged: bool, rendererChanged: bool): Wish {
    if !(w.link && w.renderer == OpenGl) then w
    else if linkChanged && !rendererChanged then w.(renderer := Software)
    else w.(link := false)
  }

  /** The part of the frontend's context that concerns renderer and link. */
  class Core {
    var loaded: bool
    var nds: bool
    var pair: NdsPair
    var sessionLink: bool
    var options: Wish
    var loadedRenderer: Renderer
    /** The link value last exchanged with the frontend, if any. */
    var frontendLink: Option<bool>
    /** A link change waiting to be retried on another engine. */
    var pending: Option<bool>
    var shutdown: bool
    /** The frontend loaded a session and has neither unloaded it nor lost it to a failed rollback. */
    ghost var wanted: bool
    /** What has happened to the core so far. */
    ghost var handled: seq<Event>

    constructor ()
      ensures Inv() && !loaded && !nds && !wanted && !shutdown && fresh(pair) && handled == []
      ensures options == Wish(false, Software) && !sessionLink && frontendLink == None && pending == None
    {
      handled := [];
      loaded, nds, sessionLink, shutdown, wanted := false, false, false, false, false;
      options, loadedRenderer, frontendLink, pending := Wish(false, Software), Software, None, None;
      pair := new NdsPair();
    }

    /** A loaded, unpoisoned Nintendo DS session shows in its options the link flag and the renderer
        that the session and the engine really have, and never both OpenGL and Local Link. */
    predicate Agrees()
      reads this, pair
    {
      && options.link == sessionLink == pair.link
      && options.renderer == loadedRenderer == pair.renderer
      && !(options.link && options.renderer == OpenGl)
    }

    /** Nothing but a poisoned pair takes a wanted session away. */
    ghost predicate Inv()
      reads this, pair
    {
      && pair.Consistent()
      && (loaded ==> wanted)
      && (wanted && !loaded ==> nds && !pair.idle)
      && (loaded && nds && pair.idle ==> Agrees())
      && (loaded && nds ==> pending == None)
      && (!nds ==> pair.idle && pair.renderer == Software)
    }

    method SetSessionLink(enabled: bool) returns (ok: bool)
      requires pair.Consistent()
      modifies this`sessionLink, pair`link, pair`failures, pair`refusals
      ensures pair.Consistent()
      ensures sessionLink == if ok then enabled else old(sessionLink)
      ensures pair.link == if ok then enabled else old(pair.link)
      ensures
        var failed := !ok && loaded && !(enabled && pair.renderer == OpenGl);
        && pair.failures == old(pair.failures) + (if failed then 1 else 0)
        && pair.refusals == old(pair.refusals) + (if failed then 1 else 0)
    {
      ok := false;
      if loaded {
        ok := pair.SetLink(enabled);
        sessionLink := if ok then enabled else sessionLink;
      }
    }

    /** `activate_loaded_gl_renderer`: false only for a pair that became unusable. */
    method ActivateLoaded() returns (ok: bool)
      requires pair.Consistent() && loaded && nds && options.renderer == OpenGl
      modifies this`options, this`loadedRenderer, pair
      ensures pair.idle ==> old(pair.idle)
      ensures pair.Consistent() && pair.link == old(pair.link) && pair.failures >= old(pair.failures)
      ensures pair.refusals == old(pair.refusals)
      ensures options.link == old(options.link)
      ensures ok && pair.idle ==> options.renderer == loadedRenderer == pair.renderer
      ensures ok && pair.idle && !pair.link && pair.failures == old(pair.failures) ==> pair.renderer == OpenGl
      ensures !pair.idle && old(pair.idle) ==> !ok
      ensures old(pair.idle) && !pair.idle ==> pair.failures > old(pair.failures)
      ensures !ok ==> !pair.idle
    {
      var switched := pair.SetVideoRenderer(OpenGl);
      ok := switched || pair.renderer == Software;
      if switched || !ok {
        loadedRenderer := OpenGl;
      } else {
        loadedRenderer, options := Software, options.(renderer := Software);
      }
    }

    /** `deactivate_loaded_gl_renderer`. */
    method DeactivateLoaded() returns (ok: bool)
      requires pair.Consistent()
      modifies this`loadedRenderer, pair
      ensures pair.idle ==> old(pair.idle)
      ensures old(pair.renderer) == Software ==> pair.idle == old(pair.idle) && pair.renderer == Software
      ensures pair.Consistent() && pair.link == old(pair.link) && pair.failures >= old(pair.failures)
      ensures pair.refusals == old(pair.refusals)
      ensures loaded && ok && pair.idle ==> loadedRenderer == pair.renderer == Software
      ensures loaded && !pair.idle && old(pair.idle) ==> !ok
      ensures !ok && old(pair.idle) ==> pair.failures > old(pair.failures)
      ensures !ok ==> !pair.idle
    {
      ok := true;
      if loaded && pair.renderer == OpenGl {
        var switched := pair.SetVideoRenderer(Software);
        ok := switched || pair.renderer == Software;
      }
      loadedRenderer := if ok then Software else OpenGl;
    }

    /** `discard_current`. */
    method Discard()
      requires pair.Consistent()
      modifies this`loaded, this`loadedRenderer, pair
      ensures pair.Consistent() && !loaded && pair.failures >= old(pair.failures)
      ensures pair.idle ==> old(pair.idle)
      ensures old(pair.renderer) == Software ==> pair.idle == old(pair.idle) && pair.renderer == Software
    {
      var released := DeactivateLoaded();
      loaded := false;
    }

    /** `retire_failed_renderer_session`. */
    method Retire()
      requires pair.Consistent()
      modifies this`loaded, this`loadedRenderer, this`shutdown, pair
      ensures pair.Consistent() && !loaded && shutdown && pair.failures >= old(pair.failures)
      ensures pair.idle ==> old(pair.idle)
      ensures old(pair.renderer) == Software ==> pair.idle == old(pair.idle) && pair.renderer == Software
    {
      Discard();
      shutdown := true;
    }

    /** Opens a new pair with the options as they stand, and activates OpenGL if they ask for it. */
    method Open() returns (ok: bool)
      requires pair.Consistent() && pair.idle && pair.renderer == Software && pair.failures == 0
      requires pending == None && !loaded && !(nds && options.renderer == OpenGl && options.link)
      requires loadedRenderer == Software
      modifies this`loaded, this`sessionLink, this`wanted, this`options, this`loadedRenderer, pair
      ensures Inv() && ok == loaded && (wanted && pair.idle ==> loaded)
      ensures pair.failures == 0 ==> loaded && options == old(options)
    {
      ok := pair.Task();
      wanted := ok;
      if ok {
        pair.link, sessionLink, loaded := options.link, options.link, true;
        if nds && options.renderer == OpenGl {
          ok := ActivateLoaded();
          if !ok {
            Discard();
          }
        }
      }
    }

    /** The renderer and link part of loading a pair that is a Nintendo DS pair or not. */
    method Load(isNds: bool, read: Wish) returns (ok: bool)
      requires Inv() && !loaded
      modifies this
      ensures Inv() && ok == loaded && fresh(pair) && handled == old(handled)
      ensures nds == isNds && (wanted && pair.idle ==> loaded) && pending == None
      ensures frontendLink == Some(read.link && !(isNds && read.renderer == OpenGl))
      // Without a failure the pair loads, with the link given up for OpenGL.
      ensures pair.failures == 0 ==>
                loaded && options == if isNds && read.renderer == OpenGl then read.(link := false) else read
    {
      pending := None;
      nds, loadedRenderer := isNds, Software;
      options := if isNds && read.renderer == OpenGl then read.(link := false) else read;
      frontendLink := Some(options.link);
      pair := new NdsPair();
      ok := Open();
    }

    method ReflectLink(enabled: bool)
      modifies this`options, this`frontendLink
      ensures options == old(options).(link := enabled) && frontendLink == Some(enabled)
    {
      options, frontendLink := options.(link := enabled), Some(enabled);
    }

    /** The branch of `update_options` that wants OpenGL. */
    method SelectOpenGl()
      requires Inv() && loaded && nds
      modifies this`options, this`frontendLink, this`sessionLink, this`loadedRenderer, this`loaded, this`shutdown, pair
      ensures Inv() && pair.failures >= old(pair.failures)
      ensures (loaded && pair.idle && pair.failures == old(pair.failures)) ==> options == Wish(false, OpenGl)
      ensures old(pair.idle) ==> (loaded <==> pair.idle)
      ensures old(pair.idle) && pair.failures == old(pair.failures) ==> loaded
      // A refused link change alone leaves everything as it was, and a fallback to software keeps the link.
      ensures (loaded && pair.idle
               && pair.failures == old(pair.failures) + 1 && pair.refusals == old(pair.refusals) + 1)
              ==> options == old(options)
      ensures (loaded && pair.idle && pair.refusals == old(pair.refusals) && options.renderer == Software)
              ==> options.link == old(options.link)
      ensures loaded && pair.idle ==> frontendLink == Some(options.link)
    {
      var oldLink := options.link;
      if oldLink {
        var cut := SetSessionLink(false);
        if !cut {
          ReflectLink(true);
          options := options.(renderer := Software);
          return;
        }
      }
      options := Wish(false, OpenGl);
      if loadedRenderer != OpenGl {
        var usable := ActivateLoaded();
        if !usable {
          Retire();
          return;
        }
      }
      if loadedRenderer == OpenGl {
        ReflectLink(false);
        return;
      }
      options := options.(renderer := Software);
      var back := false;
      if oldLink {
        back := SetSessionLink(true);
      }
      ReflectLink(back);
    }

    /** The branch of `update_options` that wants software rendering. */
    method SelectSoftware(wantLink: bool)
      requires Inv() && loaded && nds
      modifies this`options, this`frontendLink, this`sessionLink, this`loadedRenderer, this`loaded, this`shutdown, pair
      ensures Inv() && pair.failures >= old(pair.failures)
      ensures (loaded && pair.idle && pair.failures == old(pair.failures)) ==> options == Wish(wantLink, Software)
      ensures old(pair.idle) ==> (loaded <==> pair.idle)
      ensures old(pair.idle) && pair.failures == old(pair.failures) ==> loaded
      // A refused link change alone leaves everything as it was.
      ensures (loaded && pair.idle
               && pair.failures == old(pair.failures) + 1 && pair.refusals == old(pair.refusals) + 1)
              ==> options == old(options)
      ensures loaded && pair.idle && pair.refusals == old(pair.refusals) ==> options == Wish(wantLink, Software)
      ensures loaded && pair.idle ==> frontendLink == Some(options.link)
    {
      var wasGl := loadedRenderer == OpenGl;
      if wasGl {
        var released := DeactivateLoaded();
        if !released {
          ReflectLink(false);
          options := options.(renderer := OpenGl);
          Retire();
          return;
        }
      }
      options := options.(renderer := Software);
      if wantLink != options.link {
        var changed := SetSessionLink(wantLink);
        if !changed {
          if wasGl && wantLink {
            options := options.(renderer := OpenGl);
            var usable := ActivateLoaded();
            if !usable {
              Retire();
              return;
            }
            options := options.(renderer := loadedRenderer);
          }
          ReflectLink(sessionLink);
          return;
        }
      }
      options, frontendLink := Wish(wantLink, Software), Some(wantLink);
    }

    /** Either branch, for a request without a conflict. */
    method Select(wish: Wish)
      requires Inv() && loaded && nds && !(wish.link && wish.renderer == OpenGl)
      modifies this`options, this`frontendLink, this`sessionLink, this`loadedRenderer, this`loaded, this`shutdown,
               this`pending, pair
      ensures Inv() && pair.failures >= old(pair.failures)
      ensures loaded && pair.idle && pair.failures == old(pair.failures) ==> options == wish
      ensures old(pair.idle) ==> (loaded <==> pair.idle)
      ensures old(pair.idle) && pair.failures == old(pair.failures) ==> loaded
      ensures (loaded && pair.idle
               && pair.failures == old(pair.failures) + 1 && pair.refusals == old(pair.refusals) + 1)
              ==> options == old(options)
      ensures (loaded && pair.idle && pair.refusals == old(pair.refusals)
               && wish.renderer == OpenGl && options.renderer == Software)
              ==> options.link == old(options.link)
      ensures loaded && pair.idle ==> frontendLink == Some(options.link)
    {
      pending := None;
      if wish.renderer == OpenGl {
        SelectOpenGl();
      } else {
        SelectSoftware(wish.link);
      }
    }

    /** What the frontend's values ask for, with the remembered link value where it gives none. */
    function Requested(readLink: Option<bool>, readRenderer: Option<Renderer>): Wish
      reads this
    {
      Wish(Or(readLink, Or(frontendLink, options.link)), Or(readRenderer, options.renderer))
    }

    /** The request after conflicts are settled, which happens only for a Nintendo DS session. */
    function Settled(w: Wish): Wish
      reads this
    {
      if loaded && nds then Settle(w, frontendLink != Some(w.link), w.renderer != options.renderer) else w
    }

    /** `update_options`, given what the frontend reports. */
    method UpdateOptions(updated: bool, readLink: Option<bool>, readRenderer: Option<Renderer>)
      requires Inv()
      modifies this, pair
      ensures Inv() && pair == old(pair) && pair.failures >= old(pair.failures) && handled == old(handled)
      // Without a failure a Nintendo DS session ends up as the values ask. If they ask for OpenGL and the link,
      // the link wins when it alone is new, and OpenGL wins otherwise.
      ensures
        var link :=
          if readLink.Some? then readLink.value
          else if old(frontendLink).Some? then old(frontendLink).value else old(options.link);
        var renderer := if readRenderer.Some? then readRenderer.value else old(options.renderer);
        (updated && loaded && nds && pair.idle && pair.failures == old(pair.failures)) ==>
          options == if !link || renderer == Software then Wish(link, renderer)
          else if old(frontendLink) != Some(true) && old(options.renderer) == OpenGl then Wish(true, Software)
          else Wish(false, OpenGl)
      // A refused link change alone leaves it as it was, and a fallback to software keeps the link.
      ensures (updated && loaded && nds && pair.idle
               && pair.failures == old(pair.failures) + 1 && pair.refusals == old(pair.refusals) + 1)
              ==> options == old(options)
      ensures (updated && loaded && nds && pair.idle && pair.refusals == old(pair.refusals)
               && old(Settled(Requested(readLink, readRenderer))).renderer == OpenGl && options.renderer == Software)
              ==> options.link == old(options.link)
      ensures updated && loaded && nds && pair.idle ==> frontendLink == Some(options.link)
      // Without such a session the values are remembered, and a link that is new is tried until it is accepted.
      ensures
        var link :=
          if readLink.Some? then readLink.value
          else if old(frontendLink).Some? then old(frontendLink).value else old(options.link);
        var renderer := if readRenderer.Some? then readRenderer.value else old(options.renderer);
        var asked := if updated && old(frontendLink) != Some(link) then Some(link) else old(pending);
        !old(loaded && nds) ==>
          && options.renderer == (if updated then renderer else old(options.renderer))
          && frontendLink == (if updated then Some(link) else old(frontendLink))
          && (if asked.None? || pair.failures > old(pair.failures)
              then options.link == old(options.link) && pending == asked
              else options.link == asked.value && pending == None
                   && (loaded ==> sessionLink == pair.link == asked.value))
      // The session survives exactly when its pair did, and always without a failure.
      ensures old(loaded && nds && pair.idle) ==> (loaded <==> pair.idle)
      ensures old(loaded && nds && pair.idle) && pair.failures == old(pair.failures) ==> loaded
      ensures nds == old(nds) && wanted == old(wanted) && (old(loaded) && !nds ==> loaded)
    {
      if updated {
        var wish := Requested(readLink, readRenderer);
        var linkChanged := frontendLink != Some(wish.link);
        wish := Settled(wish);
        frontendLink := Some(wish.link);
        if loaded && nds {
          Select(wish);
          return;
        }
        Remember(wish.renderer, if linkChanged then Some(wish.link) else pending);
        return;
      }
      RetryPending();
    }

    /** The part of `update_options` for sessions of other engines, or none. */
    method Remember(renderer: Renderer, asked: Option<bool>)
      requires Inv() && !(loaded && nds)
      modifies this`options, this`sessionLink, this`pending, pair`link, pair`failures, pair`refusals
      ensures Inv() && pair.failures >= old(pair.failures) && options.renderer == renderer
      ensures if asked.None? || pair.failures > old(pair.failures)
              then options.link == old(options.link) && pending == asked
              else options.link == asked.value && pending == None
                   && (loaded ==> sessionLink == pair.link == asked.value)
    {
      options, pending := options.(renderer := renderer), asked;
      RetryPending();
    }

    /** `unload_current` as far as renderer and link go. */
    method Unload()
      requires Inv()
      modifies this`loaded, this`loadedRenderer, this`wanted, pair
      ensures Inv() && !loaded && !wanted
    {
      Discard();
      wanted := false;
    }

    /** The link part of `retro_unserialize` for a savestate that was `accepted` or not: its flag is
        applied, or the old one is put back, or the session is given up because that failed. */
    method RestoreState(accepted: bool, link: bool) returns (ok: bool, fatal: bool)
      requires Inv()
      modifies this, pair
      ensures Inv() && pair == old(pair) && nds == old(nds) && pair.failures >= old(pair.failures)
      ensures handled == old(handled)
      ensures wanted == (old(wanted) && !fatal) && loaded == (old(loaded) && !fatal)
      ensures !fatal ==> pair.idle == old(pair.idle)
      ensures fatal && old(pair.idle && nds) ==> pair.failures > old(pair.failures)
      ensures ok ==> !fatal && loaded && options == old(options).(link := link) && sessionLink == pair.link == link
      ensures !ok && !fatal ==> options == old(options) && sessionLink == old(sessionLink)
      // Without a failure an accepted state is applied, unless it wants the link under OpenGL.
      ensures (accepted && old(loaded) && !fatal && pair.failures == old(pair.failures)
               && !(link && pair.renderer == OpenGl)) ==> ok
    {
      ok, fatal := false, false;
      if !accepted || !loaded {
        return;
      }
      ok := pair.SetLink(link);
      if ok {
        ok := pair.Task();
      }
      if ok {
        sessionLink, options, pending := link, options.(link := link), None;
        return;
      }
      var linkBack := pair.SetLink(sessionLink);
      var stateBack := pair.Task();
      fatal := !linkBack || !stateBack;
      if fatal {
        Retire();
        wanted := false;
      }
    }

    /** The retry of a link change that another engine refused. */
    method RetryPending()
      requires Inv()
      requires !nds || !loaded || pending == None
      modifies this`options, this`sessionLink, this`pending, pair`link, pair`failures, pair`refusals
      ensures Inv() && pair.failures >= old(pair.failures)
      ensures options.renderer == old(options.renderer)
      ensures if old(pending).None? || pair.failures > old(pair.failures)
              then options == old(options) && pending == old(pending)
              else options == old(options).(link := old(pending).value) && pending == None
      ensures loaded && old(pending).Some? && pending == None ==> sessionLink == pair.link == old(pending).value
    {
      if pending.Some? {
        var done := true;
        if loaded {
          done := SetSessionLink(pending.value);
        }
        if done {
          options, pending := options.(link := pending.value), None;
        }
      }
    }

    /** One thing that happens to the core. */
    method Handle(event: Event)
      requires Inv()
      modifies this, pair
      ensures Inv() && handled == old(handled) + [event] && (pair == old(pair) || fresh(pair))
      ensures pair == old(pair) <==> !event.LoadPair?
      ensures event.LoadPair? ==>
                nds == event.nds
                && (pair.failures == 0 ==>
                      loaded && options == if nds && event.read.renderer == OpenGl then event.read.(link := false)
                                           else event.read)
      ensures event.Unload? ==> !wanted
      ensures event.Update? && old(loaded && nds && pair.idle) ==> (loaded <==> pair.idle)
      ensures
        event.Update? && event.updated && old(loaded && nds && pair.idle) && pair.failures == old(pair.failures) ==>
          loaded && options == old(Settled(Requested(event.link, event.renderer)))
      ensures
        (event.RestoreState? && event.accepted && old(loaded && nds && pair.idle) && pair.failures == old(pair.failures)
         && !(event.savedLink && old(pair.renderer) == OpenGl)) ==>
          loaded && options == old(options).(link := event.savedLink)
      ensures event.FrameFailure? ==> loaded == old(loaded) && (nds ==> !pair.idle)
    {
      match event {
        case LoadPair(isNds, read) =>
          Unload();
          var ok := Load(isNds, read);
        case Update(updated, link, renderer) => UpdateOptions(updated, link, renderer);
        case RestoreState(accepted, link) => var ok, fatal := RestoreState(accepted, link);
        case FrameFailure => if nds { pair.FramePoisons(); }
        case Unload => Unload();
      }
      handled := handled + [event];
    }
  }

  /** What can happen to the core between and around option updates. */
  datatype Event =
    | LoadPair(nds: bool, read: Wish)
    | Update(updated: bool, link: Option<bool>, renderer: Option<Renderer>)
    | RestoreState(accepted: bool, savedLink: bool)
    | FrameFailure
    | Unload

  /** After any sequence of loads, option updates, state restores, frame failures and unloads, with
      every transition free to fail, a session that was loaded and neither unloaded nor lost to a
      failed rollback is still there unless its pair is poisoned, agrees with its engine, and never
      has OpenGL and Local Link both on. */
  method Drive(events: seq<Event>) returns (core: Core)
    ensures core.handled == events
    ensures core.pair.Consistent()
    ensures core.loaded ==> core.wanted
    ensures core.wanted && core.pair.idle ==> core.loaded
    ensures core.wanted && core.nds && core.pair.idle ==> core.Agrees()
    ensures core.wanted && !core.nds ==> core.loaded
  {
    core := new Core();
    for i := 0 to |events|
      invariant core.Inv() && fresh(core) && fresh(core.pair) && core.handled == events[..i]
    {
      core.Handle(events[i]);
    }
  }
}
