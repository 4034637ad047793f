/** The router as the object it is, over client objects that share one camera and may coincide. */
module PolicyRouter {
  import opened Common
  import opened Motor
  import Policy = PolicyModel
  import opened PolicyClient
  import Model = RouterModel

  class GroundedPolicyRouter {
    const primary: TemporalPolicyClient
    const rawMotion: Option<TemporalPolicyClient>
    const gui: Option<TemporalPolicyClient>
    const worldCamera: WorldCameraState
    ghost const bodySet: set<TemporalPolicyClient>

    var active: TemporalPolicyClient
    var lastSequence: int
    var episode: Option<Model.Episode>

    function Bodies(): Model.Bodies<TemporalPolicyClient> { Model.Bodies(primary, rawMotion, gui) }

    function BodyPolicies(): seq<TemporalPolicyClient> { Model.UniqueBodies(Bodies()) }

    ghost predicate Valid()
      reads this
    {
      && bodySet == (set k | k in BodyPolicies())
      && active in bodySet
      && forall k :: k in bodySet ==> k.worldCamera == worldCamera
    }

    ghost function Configs(): map<TemporalPolicyClient, Policy.Config> {
      map k | k in bodySet :: k.config
    }

    ghost function Clients(): map<TemporalPolicyClient, Policy.Client>
      reads bodySet
    {
      map k | k in bodySet :: k.View()
    }

    ghost function View(): Model.Router<TemporalPolicyClient>
      reads this, bodySet, worldCamera
    {
      Model.Router(Clients(), worldCamera.estimatedPitchUnits, active, lastSequence, episode)
    }

    constructor (primary: TemporalPolicyClient, rawMotion: Option<TemporalPolicyClient>,
                 gui: Option<TemporalPolicyClient>, worldCamera: WorldCameraState)
      requires forall k :: k in Model.UniqueBodies(Model.Bodies(primary, rawMotion, gui)) ==>
                 k.worldCamera == worldCamera && k.View() == Policy.FRESH
      ensures Valid() && Bodies() == Model.Bodies(primary, rawMotion, gui) && this.worldCamera == worldCamera
      ensures View() == Model.Start(Bodies(), worldCamera.estimatedPitchUnits)
    {
      this.primary, this.rawMotion, this.gui, this.worldCamera := primary, rawMotion, gui, worldCamera;
      bodySet := set k | k in Model.UniqueBodies(Model.Bodies(primary, rawMotion, gui));
      active, lastSequence, episode := primary, -1, None;
    }

    method Act(q: Model.Routing<TemporalPolicyClient>) returns (action: Option<MotorAction>)
      requires Valid()
      modifies this, bodySet, worldCamera
      ensures Valid()
      ensures Model.Routed(View(), action) == Model.Act(Bodies(), Configs(), old(View()), q)
    {
      hide Model.Bind, Model.Refuse, Model.Perform, Clients, Model.UniqueBodies, Configs;
      var sequence := q.sequence;
      if sequence <= lastSequence {
        sequence := lastSequence + 1;
      }
      lastSequence := sequence;
      if episode.Some? && episode.value.id == q.episode.id {
        action := Perform(None, q.tick, q.observer);
        return;
      }
      match q.warmth
      case Loading(activeBusy) => action := Refuse(activeBusy, q.writes, q.observer);
      case WarmupRaises => action := None;
      case Ready => action := Bind(q);
    }

    lemma ClientsDomain()
      ensures Clients().Keys == bodySet
    {
    }

    lemma SelectedIsBody(level: Model.Level)
      requires Valid()
      ensures Model.BodyForLevel(Bodies(), level) in bodySet
    {
      assert Model.BodyForLevel(Bodies(), level) in BodyPolicies();
    }

    method ResetBody(body: TemporalPolicyClient, advance: bool, write: Policy.ResetWrite)
      returns (release: Option<MotorAction>)
      requires Valid() && body in bodySet
      modifies body
      ensures body in old(Clients())
      ensures var s := Policy.Reset(old(Clients())[body], View().pitch, advance, write);
              && Clients() == old(Clients())[body := s.client] && release == s.action
              && View().pitch == s.pitch
    {
      hide Policy.Reset, Model.UniqueBodies;
      release := body.ResetScope(advance, write);
    }

    method ActBody(tick: Policy.Tick) returns (action: Option<MotorAction>)
      requires Valid()
      modifies active, worldCamera
      ensures active in old(Clients()) && active in Configs()
      ensures var s := Policy.Act(Configs()[active], old(Clients())[active], old(View()).pitch, lastSequence, tick);
              && Clients() == old(Clients())[active := s.client] && View().pitch == s.pitch && action == s.action
    {
      hide Policy.Act, Model.UniqueBodies;
      action := active.Act(lastSequence, tick);
    }

    method Refuse(activeBusy: bool, writes: map<TemporalPolicyClient, Policy.ResetWrite>, observer: Model.Observer)
      returns (action: Option<MotorAction>)
      requires Valid()
      modifies this, bodySet
      ensures Valid()
      ensures Model.Routed(View(), action) == Model.Refuse(old(View()), activeBusy, writes, observer)
    {
      hide Policy.Reset, Clients, Model.UniqueBodies, Configs, Model.Merge, Model.Constructed, Model.WriteTo;
      action := Some(Neutral(lastSequence));
      if !activeBusy {
        var release := ResetBody(active, true, Model.WriteTo(writes, active));
        action := MergeRelease(action.value, release);
        if action.None? {
          return;
        }
      }
      if observer.RaisesInBinding? {
        return None;
      }
      episode := None;
    }

    // The merged action is constructed anew, and the constructor may refuse it.
    method MergeRelease(action: MotorAction, release: Option<MotorAction>) returns (merged: Option<MotorAction>)
      ensures merged == if release.None? then None else Model.Constructed(Model.Merge(action, release.value))
    {
      if release.None? {
        return None;
      }
      return Model.Constructed(Model.Merge(action, release.value));
    }

    method Bind(q: Model.Routing<TemporalPolicyClient>) returns (action: Option<MotorAction>)
      requires Valid()
      modifies this, bodySet, worldCamera
      ensures Valid()
      ensures Model.BodyForLevel(Bodies(), q.episode.level) in bodySet
      ensures Model.Routed(View(), action) == Model.Bind(Bodies(), Configs(), old(View()), q)
    {
      hide Policy.Reset, Model.Perform, Clients, Model.UniqueBodies, Configs, Model.BodyForLevel;
      var selected := Model.BodyForLevel(Bodies(), q.episode.level);
      SelectedIsBody(q.episode.level);
      var release: Option<MotorAction> := None;
      if episode.Some? || selected != active {
        release := ResetBody(active, false, Model.WriteTo(q.writes, active));
        if release.None? {
          return None;
        }
      }
      if q.observer.RaisesInBinding? {
        return None;
      }
      active := selected;
      episode := Some(q.episode);
      action := Perform(release, q.tick, q.observer);
    }

    method Perform(release: Option<MotorAction>, tick: Policy.Tick, observer: Model.Observer)
      returns (action: Option<MotorAction>)
      requires Valid()
      modifies active, worldCamera
      ensures Valid()
      ensures Model.Routed(View(), action) == Model.Perform(Configs(), old(View()), release, tick, observer)
    {
      hide Policy.Act, Clients, Model.UniqueBodies, Configs;
      action := ActBody(tick);
      if observer.RaisesAfterActing? {
        return None;
      }
      if action.Some? && release.Some? {
        action := MergeRelease(action.value, release);
      }
    }

    method ResetBodies(sequence: int, writes: map<TemporalPolicyClient, Policy.ResetWrite>)
      returns (release: Option<MotorAction>)
      requires Valid()
      modifies bodySet
      ensures Valid()
      ensures Model.Routed(View(), release)
              == Model.ResetBodies(old(View()), BodyPolicies(), writes, Neutral(sequence))
    {
      hide Policy.Reset, Model.Merge, Admissible, Clients, Configs;
      var bodies := BodyPolicies();
      release := Some(Neutral(sequence));
      ClientsDomain();
      for i := 0 to |bodies|
        invariant release.Some? && View() == old(View()).(clients := Clients())
        invariant Clients().Keys == bodySet
        invariant Model.ResetBodies(View(), bodies[i..], writes, release.value)
                  == Model.ResetBodies(old(View()), bodies, writes, Neutral(sequence))
      {
        assert bodies[i..][0] == bodies[i] && bodies[i..][1..] == bodies[i + 1..];
        var freed := ResetBody(bodies[i], true, Model.WriteTo(writes, bodies[i]));
        release := MergeRelease(release.value, freed);
        if release.None? {
          return;
        }
      }
    }

    method Reset(how: Model.Resetting<TemporalPolicyClient>) returns (action: Option<MotorAction>)
      requires Valid()
      modifies this, bodySet
      ensures Valid()
      ensures Model.Routed(View(), action) == Model.Reset(Bodies(), Configs(), old(View()), how)
    {
      hide Model.ResetBodies, Clients, Model.UniqueBodies, Configs;
      var sequence := lastSequence + 1;
      action := ResetBodies(sequence, how.writes);
      SelectedIsBody(Model.SkillLevel);
      if action.None? || how.observerRaises {
        return None;
      }
      lastSequence := sequence;
      active := primary;
      episode := None;
    }

    method ReleaseForObservation(observing: bool, how: Model.Resetting<TemporalPolicyClient>)
      returns (action: Option<MotorAction>)
      requires Valid()
      modifies this, bodySet
      ensures Valid()
      ensures Model.Routed(View(), action)
              == Model.ReleaseForObservation(Bodies(), Configs(), old(View()), observing, how)
    {
      hide Model.ResetBodies, Clients, Model.UniqueBodies, Configs;
      if !observing {
        action := Reset(how);
        return;
      }
      var sequence := lastSequence + 1;
      action := ResetBodies(sequence, how.writes);
      if action.Some? {
        lastSequence := sequence;
      }
    }

    method NotifyInputsReleased()
      requires Valid()
      modifies bodySet
      ensures Valid()
      ensures View() == Model.NotifyInputsReleased(old(View()))
    {
      hide Policy.NotifyReleased, Model.UniqueBodies;
      var bodies := BodyPolicies();
      Model.UniqueBodiesDistinct(Bodies());
      for i := 0 to |bodies|
        invariant forall k :: k in bodySet ==>
                    k.View() == if k in bodies[..i] then Policy.NotifyReleased(old(k.View())) else old(k.View())
      {
        assert bodies[..i + 1] == bodies[..i] + [bodies[i]] && bodies[i] in bodySet;
        bodies[i].NotifyInputsReleased();
      }
      assert bodies[..|bodies|] == bodies;
    }
  }
}
