/** A reachable starting point: one assessment, created and made ready. */
module Scenarios {
  import opened Results
  import opened Stages
  import opened Assessments
  import opened Platform
  import opened Interleavings
  import opened Requests

  /** An executor for which the stage succeeds, on every existing assessment. */
  ghost predicate Succeeds(ex: Executors, s: StageType) {
    forall w: World, id: nat :: id < |w.assessments| ==> RunExecutor(ex, w, id, s).1.success
  }

  lemma OneMoreRequest(ex: Executors, w: World, requests: seq<Request>, last: Request)
    ensures ServeAll(ex, w, requests + [last]) == Serve(ex, ServeAll(ex, w, requests), last).world
  {
    assert (requests + [last])[..|requests|] == requests;
  }

  const NEW_ASSESSMENT: seq<Request> := [Create(0, "a", Flood, "u")]
  const READY_ASSESSMENT: seq<Request> := NEW_ASSESSMENT + [ChangeStatus(0, 0, MarkReady("u"))]

  /** Only the first assessment exists, in the given status, without a workflow. */
  predicate Alone(w: World, templates: seq<Template>, status: Lifecycle, version: nat) {
    && w.assessments == [Stored(NewState(0, "a", Flood, "u").(status := status), version)]
    && w.templates == templates
  }

  lemma NewAssessment(ex: Executors, templates: seq<Template>)
    ensures Alone(ServeAll(ex, Empty(templates), NEW_ASSESSMENT), templates, Lifecycle.Draft, 0)
  {
    var name := "a";
    var request := Create(0, name, Flood, "u");
    assert [] + [request] == [request];
    OneMoreRequest(ex, Empty(templates), [], request);
    assert name[0] == 'a' && name[0] in name;
    assert !Blank(name);
    assert Serve(ex, Empty(templates), request).error == None;
  }

  predicate Reaches(cmd: Command, to: Lifecycle) {
    match cmd
    case MarkReady(_) => to == Ready
    case Start(_) => to == Lifecycle.Running
    case MarkValidated(_) => to == Validated
    case _ => false
  }

  lemma StatusAdded(ex: Executors, templates: seq<Template>, requests: seq<Request>, cmd: LifecycleCommand,
                    from: Lifecycle, to: Lifecycle, version: nat)
    requires Alone(ServeAll(ex, Empty(templates), requests), templates, from, version)
    requires LegalTransition(from, to) && Reaches(cmd, to)
    ensures Alone(ServeAll(ex, Empty(templates), requests + [ChangeStatus(0, 0, cmd)]), templates, to, version + 1)
  {
    OneMoreRequest(ex, Empty(templates), requests, ChangeStatus(0, 0, cmd));
  }

  lemma ReadyAssessment(ex: Executors, templates: seq<Template>)
    ensures Alone(ServeAll(ex, Empty(templates), READY_ASSESSMENT), templates, Ready, 1)
  {
    NewAssessment(ex, templates);
    StatusAdded(ex, templates, NEW_ASSESSMENT, MarkReady("u"), Lifecycle.Draft, Ready, 0);
  }
}
