/** The onboarding store: one state record that each action replaces by a
    copy with some fields changed, the goal list and the social connections
    being rebuilt by list edits. */
module Onboarding {
  import opened Wrappers

  datatype PathType = RecoveryPath | SkillsPath | HybridPath

  datatype GoalType = Sobriety | Skills | Projects

  datatype Goal = Goal(kind: GoalType, value: real, unit: string)

  datatype Platform = Slack | Discord | Github

  datatype SocialConnection = SocialConnection(platform: Platform, connected: bool, username: Option<string>)

  datatype OnboardingState = OnboardingState(
    currentStep: int,
    hasSeenWelcome: bool,
    selectedPath: Option<PathType>,
    selectedAvatar: Option<string>,
    username: string,
    goals: seq<Goal>,
    socialConnections: seq<SocialConnection>,
    isOnboardingComplete: bool)

  /** The three platforms, none connected. */
  const InitialConnections: seq<SocialConnection> :=
    [SocialConnection(Slack, false, None), SocialConnection(Discord, false, None), SocialConnection(Github, false, None)]

  /** The state the store starts in and `resetOnboarding` restores. */
  const Initial: OnboardingState :=
    OnboardingState(1, false, None, None, "", [], InitialConnections, false)

  /** `goals.map((g, i) => i === index ? goal : g)`. */
  function ReplaceAt(goals: seq<Goal>, index: int, goal: Goal): (r: seq<Goal>)
    ensures 0 <= index < |goals| ==> r == goals[index := goal]
    ensures !(0 <= index < |goals|) ==> r == goals
  {
    var r := seq(|goals|, k requires 0 <= k < |goals| => if k == index then goal else goals[k]);
    assert !(0 <= index < |goals|) ==> r == goals;
    r
  }

  /** `goals.filter((_, i) => i !== index)`. */
  function RemoveAt(goals: seq<Goal>, index: int): (r: seq<Goal>)
    ensures 0 <= index < |goals| ==> r == goals[..index] + goals[index + 1..]
    ensures !(0 <= index < |goals|) ==> r == goals
  {
    if goals == [] then []
    else
      var last := |goals| - 1;
      var front := RemoveAt(goals[..last], index);
      assert index == last ==> goals[..index] + goals[index + 1..] == goals[..last];
      assert 0 <= index < last ==>
        goals[..index] + goals[index + 1..] == goals[..last][..index] + goals[..last][index + 1..] + [goals[last]];
      front + (if index == last then [] else [goals[last]])
  }

  /** `connectSocial` on the list: every entry of `platform` becomes
      connected under `username`. */
  function Connect(conns: seq<SocialConnection>, platform: Platform, username: string): (r: seq<SocialConnection>)
    ensures |r| == |conns|
    ensures forall k :: 0 <= k < |r| ==> r[k].platform == conns[k].platform
    ensures forall k :: 0 <= k < |r| && conns[k].platform == platform ==>
      r[k].connected && r[k].username == Some(username)
    ensures forall k :: 0 <= k < |r| && conns[k].platform != platform ==> r[k] == conns[k]
  {
    seq(|conns|, k requires 0 <= k < |conns| =>
      if conns[k].platform == platform then conns[k].(connected := true, username := Some(username)) else conns[k])
  }

  /** `disconnectSocial` on the list: every entry of `platform` becomes
      disconnected with no username. */
  function Disconnect(conns: seq<SocialConnection>, platform: Platform): (r: seq<SocialConnection>)
    ensures |r| == |conns|
    ensures forall k :: 0 <= k < |r| ==> r[k].platform == conns[k].platform
    ensures forall k :: 0 <= k < |r| && conns[k].platform == platform ==>
      !r[k].connected && r[k].username == None
    ensures forall k :: 0 <= k < |r| && conns[k].platform != platform ==> r[k] == conns[k]
  {
    seq(|conns|, k requires 0 <= k < |conns| =>
      if conns[k].platform == platform then conns[k].(connected := false, username := None) else conns[k])
  }

  /** Removing the goal just added gives the goals back. */
  lemma RemoveAddedGoal(goals: seq<Goal>, goal: Goal)
    ensures RemoveAt(goals + [goal], |goals|) == goals
  {
    assert (goals + [goal])[..|goals|] == goals;
  }

  /** Replacing a goal by itself changes nothing, and two replacements at
      the same index keep the second. */
  lemma ReplaceAtLaws(goals: seq<Goal>, index: int, g1: Goal, g2: Goal)
    ensures 0 <= index < |goals| ==> ReplaceAt(goals, index, goals[index]) == goals
    ensures ReplaceAt(ReplaceAt(goals, index, g1), index, g2) == ReplaceAt(goals, index, g2)
  {
  }

  /** Disconnecting undoes connecting: the username given is forgotten. */
  lemma DisconnectAfterConnect(conns: seq<SocialConnection>, platform: Platform, username: string)
    ensures Disconnect(Connect(conns, platform, username), platform) == Disconnect(conns, platform)
  {
    var a := Disconnect(Connect(conns, platform, username), platform);
    var b := Disconnect(conns, platform);
    assert forall k :: 0 <= k < |a| ==> a[k] == b[k];
  }

  /** A second connection of the same platform overrides the first. */
  lemma ConnectOverrides(conns: seq<SocialConnection>, platform: Platform, u1: string, u2: string)
    ensures Connect(Connect(conns, platform, u1), platform, u2) == Connect(conns, platform, u2)
  {
    var a := Connect(Connect(conns, platform, u1), platform, u2);
    var b := Connect(conns, platform, u2);
    assert forall k :: 0 <= k < |a| ==> a[k] == b[k];
  }

  /** Edits of two different platforms do not interfere. */
  lemma ConnectionsCommute(conns: seq<SocialConnection>, p: Platform, q: Platform, u: string, v: string)
    requires p != q
    ensures Connect(Connect(conns, p, u), q, v) == Connect(Connect(conns, q, v), p, u)
    ensures Disconnect(Connect(conns, p, u), q) == Connect(Disconnect(conns, q), p, u)
  {
    var a := Connect(Connect(conns, p, u), q, v);
    var b := Connect(Connect(conns, q, v), p, u);
    assert forall k :: 0 <= k < |a| ==> a[k] == b[k];
    var c := Disconnect(Connect(conns, p, u), q);
    var d := Connect(Disconnect(conns, q), p, u);
    assert forall k :: 0 <= k < |c| ==> c[k] == d[k];
  }

  /** Some entry of `conns` is for `platform`. */
  predicate Lists(conns: seq<SocialConnection>, platform: Platform) {
    exists k :: 0 <= k < |conns| && conns[k].platform == platform
  }

  /** The initial state lists each platform once, all disconnected. */
  lemma InitialConnectionsShape()
    ensures forall p: Platform :: Lists(Initial.socialConnections, p)
    ensures forall k, j :: 0 <= k < j < |Initial.socialConnections| ==>
      Initial.socialConnections[k].platform != Initial.socialConnections[j].platform
    ensures forall k :: 0 <= k < |Initial.socialConnections| ==>
      !Initial.socialConnections[k].connected && Initial.socialConnections[k].username == None
  {
    forall p: Platform
      ensures Lists(Initial.socialConnections, p)
    {
      match p
      case Slack => assert Initial.socialConnections[0].platform == p;
      case Discord => assert Initial.socialConnections[1].platform == p;
      case Github => assert Initial.socialConnections[2].platform == p;
    }
  }

  class OnboardingStore {
    var state: OnboardingState

    constructor ()
      ensures state == Initial
    {
      state := Initial;
    }

    method SetCurrentStep(step: int)
      modifies this
      ensures state == old(state).(currentStep := step)
    {
      state := state.(currentStep := step);
    }

    method MarkWelcomeSeen()
      modifies this
      ensures state == old(state).(hasSeenWelcome := true)
    {
      state := state.(hasSeenWelcome := true);
    }

    /** `selectPath`; `None` is the `null` path. */
    method SelectPath(path: Option<PathType>)
      modifies this
      ensures state == old(state).(selectedPath := path)
    {
      state := state.(selectedPath := path);
    }

    method SelectAvatar(avatarId: string)
      modifies this
      ensures state == old(state).(selectedAvatar := Some(avatarId))
    {
      state := state.(selectedAvatar := Some(avatarId));
    }

    method SetUsername(username: string)
      modifies this
      ensures state == old(state).(username := username)
    {
      state := state.(username := username);
    }

    method AddGoal(goal: Goal)
      modifies this
      ensures state == old(state).(goals := old(state.goals) + [goal])
    {
      state := state.(goals := state.goals + [goal]);
    }

    method UpdateGoal(index: int, goal: Goal)
      modifies this
      ensures state == old(state).(goals := ReplaceAt(old(state.goals), index, goal))
    {
      state := state.(goals := ReplaceAt(state.goals, index, goal));
    }

    method RemoveGoal(index: int)
      modifies this
      ensures state == old(state).(goals := RemoveAt(old(state.goals), index))
    {
      state := state.(goals := RemoveAt(state.goals, index));
    }

    method ConnectSocial(platform: Platform, username: string)
      modifies this
      ensures state == old(state).(socialConnections := Connect(old(state.socialConnections), platform, username))
    {
      state := state.(socialConnections := Connect(state.socialConnections, platform, username));
    }

    method DisconnectSocial(platform: Platform)
      modifies this
      ensures state == old(state).(socialConnections := Disconnect(old(state.socialConnections), platform))
    {
      state := state.(socialConnections := Disconnect(state.socialConnections, platform));
    }

    method CompleteOnboarding()
      modifies this
      ensures state == old(state).(isOnboardingComplete := true)
    {
      state := state.(isOnboardingComplete := true);
    }

    method ResetOnboarding()
      modifies this
      ensures state == Initial
    {
      state := Initial;
    }
  }
}
