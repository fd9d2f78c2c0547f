/** The live recognition loop of `app.py` (`reconhecer_faces_webcam`): a state machine over the
    grant timer, the count of consecutive matches and the last matched CPF. The detector, the
    classifier and the clock are inputs: each frame arrives with its boxes, each box with the
    classifier's prediction, and each step with the current time in whole seconds. */
module Recognition {
  import opened Wrappers
  import opened Dict
  import opened Tables

  /** `LIMITE_CONFIANCA`: a prediction is accepted only at a distance strictly below this. */
  const Threshold: int := 50
  /** `MIN_TAMANHO_ROSTO`: smaller boxes are skipped. */
  const MinFace: nat := 80
  /** `MAX_TENTATIVAS_RECONHECIMENTO`: matches in a row needed before the timer runs. */
  const MinMatches: nat := 2
  /** Seconds an authorized face must stay recognized before access is granted. */
  const HoldSeconds: int := 3

  /** A detected face box and the classifier's `(label, confidence)` for its crop. */
  datatype Detection = Detection(w: nat, h: nat, predicted: nat, distance: real)

  /** One turn of the loop: the frame could not be read, or its boxes and whether 'q' was read
      after it was shown. */
  datatype Frame = ReadFailure | Captured(boxes: seq<Detection>, quitPressed: bool)

  /** The arguments of `reconhecer_faces_webcam`: the saved id order and both tables. */
  datatype Context = Context(order: seq<string>, tiers: TierTable, users: UserTable)

  /** `acesso_concedido_tempo`, `tentativas_reconhecimento`, `ultimo_rosto_reconhecido`. */
  datatype Tracking = Tracking(timer: Option<int>, count: nat, last: Option<string>)

  const Idle: Tracking := Tracking(None, 0, None)

  /** After one box: go on with a new state, or grant access to a tier (the state at that moment). */
  datatype BoxResult = Next(after: Tracking) | Grant(tier: string, at: Tracking)

  datatype Outcome = Continue | Granted(tier: string) | Quit

  // ---------------------------------------------------------------------------------------------
  // The decision for one box

  /** The position of the first identity record, in table order, whose id is `id`. */
  function FirstWithId(users: UserTable, id: string): (r: Option<nat>)
    ensures r.Some? ==> r.value < |users| && users[r.value].1.id == id
    ensures r.Some? ==> forall j :: 0 <= j < r.value ==> users[j].1.id != id
    ensures r.None? <==> forall j :: 0 <= j < |users| ==> users[j].1.id != id
  {
    if users == [] then None
    else if users[0].1.id == id then Some(0)
    else
      match FirstWithId(users[1..], id)
      case Some(i) => Some(i + 1)
      case None => None
  }

  /** `next((cpf for cpf, data in dados_usuario.items() if data['id'] == id), None)`. */
  function FindCpfById(users: UserTable, id: string): Option<string> {
    match FirstWithId(users, id)
    case Some(i) => Some(users[i].0)
    case None => None
  }

  /** `if cpf_encontrado:`: a CPF was found and is not the (falsy) empty string. */
  predicate Found(r: Option<string>) {
    r.Some? && r.value != ""
  }

  /** The prediction passes `confianca < LIMITE_CONFIANCA and rotulo_id < len(ids_treinamento)`. */
  predicate Admitted(d: Detection, ctx: Context) {
    d.distance < Threshold as real && d.predicted < |ctx.order|
  }

  /** The CPF an admitted prediction names. */
  function MatchedCpf(d: Detection, ctx: Context): Option<string>
    requires Admitted(d, ctx)
  {
    FindCpfById(ctx.users, ctx.order[d.predicted])
  }

  /** The consistency check: the same CPF again adds one, a new CPF starts over at one. */
  function Debounced(s: Tracking, cpf: string): Tracking {
    if s.last == Some(cpf) then Tracking(s.timer, s.count + 1, s.last) else Tracking(s.timer, 1, Some(cpf))
  }

  /** What one box of a frame does to the state. */
  function BoxStep(s: Tracking, d: Detection, now: int, ctx: Context): BoxResult {
    if d.w < MinFace || d.h < MinFace then Next(s)
    else if !Admitted(d, ctx) then Next(Idle)
    else if !Found(MatchedCpf(d, ctx)) then Next(Tracking(None, 0, s.last))
    else
      var cpf := MatchedCpf(d, ctx).value;
      var s1 := Debounced(s, cpf);
      var (tier, status) := TierOf(cpf, ctx.tiers);
      if status == Authorized && s1.count >= MinMatches then
        var start := if s1.timer.None? then now else s1.timer.value;
        var s2 := Tracking(Some(start), s1.count, s1.last);
        if now - start >= HoldSeconds then Grant(tier, s2) else Next(s2)
      else Next(s1)
  }

  /** The boxes of a frame in detector order; the first grant ends the frame. */
  function ProcessBoxes(s: Tracking, boxes: seq<Detection>, now: int, ctx: Context): BoxResult
    decreases |boxes|
  {
    if boxes == [] then Next(s)
    else
      match BoxStep(s, boxes[0], now, ctx)
      case Grant(tier, at) => Grant(tier, at)
      case Next(s1) => ProcessBoxes(s1, boxes[1..], now, ctx)
  }

  /** One turn of the loop: a read failure ends the loop; a frame without boxes resets the state
      before its (empty) box loop; 'q' ends the loop unless a box granted access first. */
  function FrameStep(s: Tracking, f: Frame, now: int, ctx: Context): (Tracking, Outcome) {
    match f
    case ReadFailure => (s, Quit)
    case Captured(boxes, quit) =>
      var s1 := if boxes == [] then Idle else s;
      match ProcessBoxes(s1, boxes, now, ctx)
      case Grant(tier, at) => (at, Granted(tier))
      case Next(s2) => (s2, if quit then Quit else Continue)
  }

  /** The loop over the frames: it goes on while the frames say `Continue`. */
  function Run(s: Tracking, frames: seq<(Frame, int)>, ctx: Context): (Tracking, Outcome)
    decreases |frames|
  {
    if frames == [] then (s, Continue)
    else
      var (s1, o) := FrameStep(s, frames[0].0, frames[0].1, ctx);
      if o.Continue? then Run(s1, frames[1..], ctx) else (s1, o)
  }

  // ---------------------------------------------------------------------------------------------
  // The engine

  /** The three variables of the recognition loop, with the arguments they are checked against. */
  class Engine {
    var timer: Option<int>
    var count: nat
    var last: Option<string>
    const ctx: Context

    function Current(): Tracking
      reads this
    {
      Tracking(timer, count, last)
    }

    constructor(ctx: Context)
      ensures Current() == Idle && this.ctx == ctx
    {
      this.ctx := ctx;
      timer := None;
      count := 0;
      last := None;
    }

    /** The body of `for (x, y, w, h) in rostos_detectados`. A `continue` only moves on to the
        next box; a grant is returned to the caller, which stops at once. */
    method HandleBox(d: Detection, now: int) returns (granted: Option<string>)
      modifies this
      ensures BoxStep(old(Current()), d, now, ctx) ==
        if granted.Some? then Grant(granted.value, Current()) else Next(Current())
    {
      if d.w < MinFace || d.h < MinFace {
        return None;
      }
      if d.distance < Threshold as real && d.predicted < |ctx.order| {
        var id := ctx.order[d.predicted];
        var found := FindCpfById(ctx.users, id);
        if found.Some? && found.value != "" {
          var cpf := found.value;
          if last == Some(cpf) {
            count := count + 1;
          } else {
            count := 1;
            last := Some(cpf);
          }
          var (tier, status) := TierOf(cpf, ctx.tiers);
          if status == Authorized && count >= MinMatches {
            if timer.None? {
              timer := Some(now);
            }
            if now - timer.value >= HoldSeconds {
              return Some(tier);
            }
          }
        } else {
          timer := None;
          count := 0;
        }
      } else {
        timer := None;
        count := 0;
        last := None;
      }
      return None;
    }

    /** One turn of the `while True` loop. */
    method Step(frame: Frame, now: int) returns (outcome: Outcome)
      modifies this
      ensures (Current(), outcome) == FrameStep(old(Current()), frame, now, ctx)
    {
      if frame.ReadFailure? {
        return Quit;
      }
      var boxes := frame.boxes;
      if |boxes| == 0 {
        timer := None;
        count := 0;
        last := None;
      }
      ghost var start := Current();
      var i := 0;
      assert boxes[0..] == boxes;
      while i < |boxes|
        invariant 0 <= i <= |boxes|
        invariant ProcessBoxes(start, boxes, now, ctx) == ProcessBoxes(Current(), boxes[i..], now, ctx)
      {
        assert boxes[i..][0] == boxes[i] && boxes[i..][1..] == boxes[i + 1..];
        var granted := HandleBox(boxes[i], now);
        if granted.Some? {
          return Granted(granted.value);
        }
        i := i + 1;
      }
      outcome := if frame.quitPressed then Quit else Continue;
    }
  }

  /** How a recognition session ends. */
  datatype SessionOutcome =
    | NoCamera                  // the webcam could not be opened
    | Ended                     // a read failure or 'q'
    | AccessGranted(tier: string)  // the document viewer opens for this tier
    | Pending                   // the frames ran out with the loop still going

  function SessionResult(ctx: Context, cameraOpens: bool, frames: seq<(Frame, int)>): SessionOutcome {
    if !cameraOpens then NoCamera
    else
      match Run(Idle, frames, ctx).1
      case Continue => Pending
      case Granted(tier) => AccessGranted(tier)
      case Quit => Ended
  }

  lemma RunStep(s: Tracking, frames: seq<(Frame, int)>, i: nat, ctx: Context)
    requires i < |frames|
    ensures Run(s, frames[i..], ctx) ==
      var (s1, o) := FrameStep(s, frames[i].0, frames[i].1, ctx);
      if o.Continue? then Run(s1, frames[i + 1..], ctx) else (s1, o)
  {
    assert frames[i..][0] == frames[i] && frames[i..][1..] == frames[i + 1..];
  }

  /** `reconhecer_faces_webcam`: starts from the reset state and steps through the frames until
      access is granted, a read fails or 'q' is pressed. */
  method RecognizeFaces(ctx: Context, cameraOpens: bool, frames: seq<(Frame, int)>) returns (outcome: SessionOutcome)
    ensures outcome == SessionResult(ctx, cameraOpens, frames)
  {
    if !cameraOpens {
      return NoCamera;
    }
    var engine := new Engine(ctx);
    var i := 0;
    assert frames[0..] == frames;
    while i < |frames|
      invariant 0 <= i <= |frames|
      invariant Run(Idle, frames, ctx) == Run(engine.Current(), frames[i..], ctx)
    {
      RunStep(engine.Current(), frames, i, ctx);
      var o := engine.Step(frames[i].0, frames[i].1);
      if o.Granted? {
        return AccessGranted(o.tier);
      }
      if o.Quit? {
        return Ended;
      }
      i := i + 1;
    }
    outcome := Pending;
  }

  // ---------------------------------------------------------------------------------------------
  // Properties

  /** A frame without faces resets all three variables. */
  lemma NoFacesResets(s: Tracking, quit: bool, now: int, ctx: Context)
    ensures FrameStep(s, Captured([], quit), now, ctx) == (Idle, if quit then Quit else Continue)
  {
  }

  /** A box below the minimum size changes nothing. */
  lemma SmallBoxIgnored(s: Tracking, d: Detection, now: int, ctx: Context)
    requires d.w < MinFace || d.h < MinFace
    ensures BoxStep(s, d, now, ctx) == Next(s)
  {
  }

  /** A rejected prediction resets all three variables; the threshold is strict, so a distance of
      exactly 50 and a label past the end of the id order are both rejections. */
  lemma RejectionResets(s: Tracking, d: Detection, now: int, ctx: Context)
    requires d.w >= MinFace && d.h >= MinFace
    requires d.distance >= 50.0 || d.predicted >= |ctx.order|
    ensures BoxStep(s, d, now, ctx) == Next(Idle)
  {
  }

  /** An admitted label whose id belongs to no CPF resets the timer and the count but keeps the
      last CPF. */
  lemma UnknownIdKeepsLast(s: Tracking, d: Detection, now: int, ctx: Context)
    requires d.w >= MinFace && d.h >= MinFace && Admitted(d, ctx)
    requires forall j :: 0 <= j < |ctx.users| ==> ctx.users[j].1.id != ctx.order[d.predicted]
    ensures BoxStep(s, d, now, ctx) == Next(Tracking(None, 0, s.last))
  {
  }

  /** A recognized CPF no tier lists only updates the consistency count: the timer is kept. */
  lemma UnauthorizedOnlyDebounces(s: Tracking, d: Detection, now: int, ctx: Context)
    requires d.w >= MinFace && d.h >= MinFace && Admitted(d, ctx) && Found(MatchedCpf(d, ctx))
    requires forall i :: 0 <= i < |ctx.tiers| ==> MatchedCpf(d, ctx).value !in Members(ctx.tiers[i].1)
    ensures BoxStep(s, d, now, ctx) == Next(Debounced(s, MatchedCpf(d, ctx).value))
  {
  }

  /** A box grants access exactly when its CPF is authorized, it has been matched at least twice in
      a row, the timer was already running and has run for three seconds; the tier granted is the
      CPF's tier. */
  lemma GrantCondition(s: Tracking, d: Detection, now: int, ctx: Context)
    ensures BoxStep(s, d, now, ctx).Grant? <==>
      d.w >= MinFace && d.h >= MinFace && Admitted(d, ctx) && Found(MatchedCpf(d, ctx)) &&
      TierOf(MatchedCpf(d, ctx).value, ctx.tiers).1 == Authorized &&
      Debounced(s, MatchedCpf(d, ctx).value).count >= MinMatches &&
      s.timer.Some? && now - s.timer.value >= HoldSeconds
    ensures BoxStep(s, d, now, ctx).Grant? ==> BoxStep(s, d, now, ctx).tier == TierOf(MatchedCpf(d, ctx).value, ctx.tiers).0
  {
  }

  /** Within one frame the timer is either unset or set to the frame's own time. */
  predicate TimerFresh(s: Tracking, now: int) {
    s.timer.None? || s.timer == Some(now)
  }

  lemma {:induction false} NoGrantFromFreshTimer(s: Tracking, boxes: seq<Detection>, now: int, ctx: Context)
    requires TimerFresh(s, now)
    ensures ProcessBoxes(s, boxes, now, ctx).Next?
    ensures TimerFresh(ProcessBoxes(s, boxes, now, ctx).after, now)
    decreases |boxes|
  {
    if boxes != [] {
      var r := BoxStep(s, boxes[0], now, ctx);
      assert r.Next? && TimerFresh(r.after, now);
      NoGrantFromFreshTimer(r.after, boxes[1..], now, ctx);
    }
  }

  /** The frame that starts the timer cannot grant access: with one time per frame no box of it
      sees the timer run for three seconds. */
  lemma NoGrantOnTimerStart(s: Tracking, f: Frame, now: int, ctx: Context)
    requires s.timer.None?
    ensures !FrameStep(s, f, now, ctx).1.Granted?
    ensures FrameStep(s, f, now, ctx).0.timer.None? || FrameStep(s, f, now, ctx).0.timer == Some(now)
  {
    if f.Captured? {
      var s1 := if f.boxes == [] then Idle else s;
      NoGrantFromFreshTimer(s1, f.boxes, now, ctx);
    }
  }

  /** A frame showing exactly one admitted face of `cpf`, and no 'q'. */
  predicate SingleFace(f: Frame, cpf: string, ctx: Context) {
    f.Captured? && !f.quitPressed && |f.boxes| == 1 &&
    var d := f.boxes[0];
    d.w >= MinFace && d.h >= MinFace && Admitted(d, ctx) && MatchedCpf(d, ctx) == Some(cpf) && cpf != ""
  }

  /** N frames in a row of the same face add N to the count (starting over when the last CPF was a
      different one), as long as they do not end the session. */
  lemma {:induction false} SameFaceCounts(s: Tracking, frames: seq<(Frame, int)>, cpf: string, ctx: Context)
    requires |frames| > 0
    requires forall k :: 0 <= k < |frames| ==> SingleFace(frames[k].0, cpf, ctx)
    requires Run(s, frames, ctx).1 == Continue
    ensures Run(s, frames, ctx).0.count == (if s.last == Some(cpf) then s.count else 0) + |frames|
    ensures Run(s, frames, ctx).0.last == Some(cpf)
    decreases |frames|
  {
    var f := frames[0].0;
    assert SingleFace(f, cpf, ctx);
    assert f.boxes[1..] == [];
    var now := frames[0].1;
    var d := f.boxes[0];
    var r := BoxStep(s, d, now, ctx);
    assert ProcessBoxes(s, f.boxes, now, ctx) == if r.Grant? then r else ProcessBoxes(r.after, [], now, ctx);
    var (s1, o) := FrameStep(s, f, now, ctx);
    assert o == Continue;
    assert r.Next? && s1 == r.after;
    assert s1.count == Debounced(s, cpf).count && s1.last == Debounced(s, cpf).last;
    if |frames| > 1 {
      forall k | 0 <= k < |frames[1..]| ensures SingleFace(frames[1..][k].0, cpf, ctx) {
        assert frames[1..][k] == frames[k + 1];
      }
      SameFaceCounts(s1, frames[1..], cpf, ctx);
    }
  }

  /** A frame that ends the session is the last processed: later frames make no difference. */
  lemma {:induction false} RunStopsAtEnd(s: Tracking, a: seq<(Frame, int)>, b: seq<(Frame, int)>, ctx: Context)
    requires Run(s, a, ctx).1 != Continue
    ensures Run(s, a + b, ctx) == Run(s, a, ctx)
    decreases |a|
  {
    assert a != [];
    assert (a + b)[0] == a[0] && (a + b)[1..] == a[1..] + b;
    var (s1, o) := FrameStep(s, a[0].0, a[0].1, ctx);
    if o.Continue? {
      RunStopsAtEnd(s1, a[1..], b, ctx);
    }
  }

  /** Access is only ever granted to the tier of some CPF that tier lists. */
  lemma {:induction false} ProcessBoxesGrantsListed(s: Tracking, boxes: seq<Detection>, now: int, ctx: Context)
    requires ProcessBoxes(s, boxes, now, ctx).Grant?
    ensures exists cpf :: TierOf(cpf, ctx.tiers) == (ProcessBoxes(s, boxes, now, ctx).tier, Authorized)
    decreases |boxes|
  {
    var r := BoxStep(s, boxes[0], now, ctx);
    if r.Grant? {
      GrantCondition(s, boxes[0], now, ctx);
      var cpf := MatchedCpf(boxes[0], ctx).value;
      assert TierOf(cpf, ctx.tiers) == (r.tier, Authorized);
    } else {
      ProcessBoxesGrantsListed(r.after, boxes[1..], now, ctx);
    }
  }

  lemma {:induction false} RunGrantsListed(s: Tracking, frames: seq<(Frame, int)>, ctx: Context)
    requires Run(s, frames, ctx).1.Granted?
    ensures exists cpf :: TierOf(cpf, ctx.tiers) == (Run(s, frames, ctx).1.tier, Authorized)
    decreases |frames|
  {
    var f := frames[0].0;
    var (s1, o) := FrameStep(s, f, frames[0].1, ctx);
    if o.Continue? {
      RunGrantsListed(s1, frames[1..], ctx);
    } else {
      var start := if f.boxes == [] then Idle else s;
      ProcessBoxesGrantsListed(start, f.boxes, frames[0].1, ctx);
    }
  }

  /** The viewer only ever opens for a tier of the table that lists the recognized CPF. */
  lemma GrantedTierIsListed(ctx: Context, cameraOpens: bool, frames: seq<(Frame, int)>)
    requires SessionResult(ctx, cameraOpens, frames).AccessGranted?
    ensures exists cpf :: TierOf(cpf, ctx.tiers) == (SessionResult(ctx, cameraOpens, frames).tier, Authorized)
    ensures SessionResult(ctx, cameraOpens, frames).tier in Keys(ctx.tiers)
  {
    RunGrantsListed(Idle, frames, ctx);
    var cpf :| TierOf(cpf, ctx.tiers) == (SessionResult(ctx, cameraOpens, frames).tier, Authorized);
    var i := FirstTierWith(ctx.tiers, cpf).value;
    assert Keys(ctx.tiers)[i] == ctx.tiers[i].0;
  }

  /** The timer is not cleared when the recognized CPF changes. Once Ana has held the timer
      from time 0, Bia (another authorized CPF, of tier "Nivel 3") is granted after two frames at
      time 3, without being recognized for three seconds herself. */
  lemma TimerCarriesOver()
    ensures var ctx := Context(["idA", "idB"],
                               [("Nivel 1", Tier(Some(["11111111111"]))), ("Nivel 3", Tier(Some(["22222222222"])))],
                               [("11111111111", Person("Ana", "idA")), ("22222222222", Person("Bia", "idB"))]);
      var ana := Captured([Detection(100, 100, 0, 30.0)], false);
      var bia := Captured([Detection(100, 100, 1, 30.0)], false);
      Run(Idle, [(ana, 0), (ana, 0)], ctx) == (Tracking(Some(0), 2, Some("11111111111")), Continue) &&
      Run(Idle, [(ana, 0), (ana, 0), (bia, 3), (bia, 3)], ctx).1 == Granted("Nivel 3")
  {
    var ctx := Context(["idA", "idB"],
                       [("Nivel 1", Tier(Some(["11111111111"]))), ("Nivel 3", Tier(Some(["22222222222"])))],
                       [("11111111111", Person("Ana", "idA")), ("22222222222", Person("Bia", "idB"))]);
    var ana := Captured([Detection(100, 100, 0, 30.0)], false);
    var bia := Captured([Detection(100, 100, 1, 30.0)], false);
    assert FindCpfById(ctx.users, "idA") == Some("11111111111");
    assert FindCpfById(ctx.users, "idB") == Some("22222222222");
    assert TierOf("11111111111", ctx.tiers) == ("Nivel 1", Authorized);
    assert TierOf("22222222222", ctx.tiers) == ("Nivel 3", Authorized);
    var s1 := Tracking(None, 1, Some("11111111111"));
    var s2 := Tracking(Some(0), 2, Some("11111111111"));
    var s3 := Tracking(Some(0), 1, Some("22222222222"));
    assert FrameStep(Idle, ana, 0, ctx) == (s1, Continue);
    assert FrameStep(s1, ana, 0, ctx) == (s2, Continue);
    assert FrameStep(s2, bia, 3, ctx) == (s3, Continue);
    assert FrameStep(s3, bia, 3, ctx).1 == Granted("Nivel 3");
    var frames: seq<(Frame, int)> := [(ana, 0), (ana, 0), (bia, 3), (bia, 3)];
    var two: seq<(Frame, int)> := [(ana, 0), (ana, 0)];
    assert Run(s2, two[2..], ctx) == (s2, Continue);
    assert Run(s1, two[1..], ctx) == Run(s2, two[2..], ctx);
    assert Run(Idle, two, ctx) == Run(s1, two[1..], ctx);
    assert Run(s3, frames[3..], ctx).1 == Granted("Nivel 3");
    assert Run(s2, frames[2..], ctx) == Run(s3, frames[3..], ctx);
    assert Run(s1, frames[1..], ctx) == Run(s2, frames[2..], ctx);
    assert Run(Idle, frames, ctx) == Run(s1, frames[1..], ctx);
  }
}
