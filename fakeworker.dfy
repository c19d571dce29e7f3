/** The fake worker's application: it keeps the first workload it is
    assigned. Later assignments are compared with it and the difference is
    only reported, never applied. */
module FakeWorker {
  import opened Wrappers
  import Config

  class App {
    var state: Option<Config.Workload>

    /** `NewApp()`: no workload yet. */
    constructor ()
      ensures state == None
    {
      state := None;
    }

    /** `Assign(w)`: the first workload is stored; any later one leaves the
        stored workload as it was. The answer is always nil. */
    method Assign(w: Config.Workload) returns (err: Outcome<string>)
      modifies this
      ensures old(state) == None ==> state == Some(w)
      ensures old(state) != None ==> state == old(state)
      ensures err == Pass
    {
      if state == None {
        state := Some(w);
        return Pass;
      }
      var included, excluded := state.value.Difference(w);
      if |included| == 0 && |excluded| == 0 {
        return Pass;
      }
      return Pass;
    }

    /** `Run()`: does nothing. */
    method Run()
    {
    }

    /** `Terminate()`: does nothing. */
    method Terminate()
    {
    }
  }

  /** Whatever follows, a fresh worker keeps its first assignment. */
  method FirstAssignmentSticks(first: Config.Workload, later: seq<Config.Workload>) returns (a: App)
    ensures a.state == Some(first)
  {
    a := new App();
    var _ := a.Assign(first);
    var i := 0;
    while i < |later|
      invariant 0 <= i <= |later|
      invariant a.state == Some(first)
    {
      var _ := a.Assign(later[i]);
      a.Run();
      i := i + 1;
    }
    a.Terminate();
  }
}
