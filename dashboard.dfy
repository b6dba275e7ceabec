/** The dashboard page (src/app/dashboard/page.tsx): the authentication gate
    run on mount, the two room event handlers, and `handleSessionState`,
    which starts or stops a voice session.  The LiveKit room, the microphone
    prompt, the create-session call and `window.alert` are external: what
    each of them did is an input, and every state write and external call
    the handler makes is recorded, in order, in the log it returns. */
module Dashboard {
  import opened Common
  import opened ApiClient

  const MicrophoneRequiredAlert: string :=
    "Microphone access is required for voice sessions. Please allow microphone access to continue."
  const SessionFailedAlert: string := "Failed to start session"

  /** `room.state`, a LiveKit connection state. */
  datatype RoomState = RoomDisconnected | RoomConnecting | RoomConnected | RoomReconnecting | SignalReconnecting

  /** One thing the handler does: a state-cell write or an external call. */
  datatype Step =
    | SetConnecting(connecting: bool)
    | SetOpen(open: bool)
    | SetSessionStarted(started: bool)
    | RequestMicrophone                 // navigator.mediaDevices.getUserMedia({audio: true})
    | StopTracks                        // stream.getTracks().forEach(track => track.stop())
    | Send(request: HttpRequest)        // apiClient.createSession()
    | Connect(url: string, token: string)
    | EnableMicrophone                  // room.localParticipant.setMicrophoneEnabled(true, ...)
    | Disconnect
    | Alert(message: string)

  /** The steps that leave the page: calls into the browser, the network or the room. */
  predicate External(s: Step)
  {
    s.RequestMicrophone? || s.Send? || s.Connect? || s.EnableMicrophone? || s.Disconnect?
  }

  /** What the awaited calls of one start attempt produced. */
  datatype StartInputs = StartInputs(
    permission: bool,                   // getUserMedia resolved
    serverUrl: Option<string>,          // NEXT_PUBLIC_LIVEKIT_URL
    baseUrl: string,                    // the API client's base URL
    session: ApiResponse<Session>,      // what createSession() resolved with
    connected: bool,                    // room.connect resolved
    microphone: bool)                   // setMicrophoneEnabled resolved

  /** The start attempt gets as far as `room.connect`. */
  predicate ReachesConnect(o: StartInputs)
  {
    o.permission && Truthy(o.serverUrl) && !Truthy(o.session.error) && o.session.data.Some?
  }

  /** Every awaited step of the start attempt succeeds. */
  predicate StartSucceeds(o: StartInputs)
  {
    ReachesConnect(o) && o.connected && o.microphone
  }

  /** Whether a step of kind `Connect` occurs in a log. */
  predicate Connects(log: seq<Step>)
  {
    exists s :: s in log && s.Connect?
  }

  /** Whether a create-session request occurs in a log. */
  predicate Creates(log: seq<Step>)
  {
    exists s :: s in log && s.Send?
  }

  /** The create-session request as the dashboard sends it, `createSession()`
      with no token and no body argument: a POST carrying only the JSON
      content type, with the empty object `{}` as body. */
  function CreateRequest(o: StartInputs): (req: HttpRequest)
    ensures req.verb == Post && req.url == o.baseUrl + "/api/create-session"
    ensures req.headers == map[ContentTypeHeader := JsonMediaType]
    ensures AuthorizationHeader !in req.headers
    ensures req.body == Some(CreateSessionBody(CreateSessionRequest(None)))
  {
    CreateSessionWithoutArguments(o.baseUrl);
    CreateSession(o.baseUrl, None, None)
  }

  /** What the `try` block does once microphone permission was granted,
      for each place it can stop: without a server URL nothing is sent; an
      error or missing data in the envelope stops before `room.connect`; a
      rejected connect stops before the microphone; a rejected microphone
      enable stops before `sessionStarted` is set.  Each throw lands in the
      `catch`, which alerts and clears the spinner. */
  function AttemptLog(o: StartInputs): seq<Step>
  {
    if !Truthy(o.serverUrl) then
      [Alert(SessionFailedAlert), SetConnecting(false)]
    else if Truthy(o.session.error) || o.session.data.None? then
      [Send(CreateRequest(o)), Alert(SessionFailedAlert), SetConnecting(false)]
    else if !o.connected then
      [Send(CreateRequest(o)), Connect(o.serverUrl.value, o.session.data.value.token),
       Alert(SessionFailedAlert), SetConnecting(false)]
    else if !o.microphone then
      [Send(CreateRequest(o)), Connect(o.serverUrl.value, o.session.data.value.token),
       EnableMicrophone, Alert(SessionFailedAlert), SetConnecting(false)]
    else
      [Send(CreateRequest(o)), Connect(o.serverUrl.value, o.session.data.value.token),
       EnableMicrophone, SetSessionStarted(true), SetConnecting(false)]
  }

  /** Everything the start branch of `handleSessionState` does: spinner on,
      sidebar closed, the microphone prompt, then either the permission
      alert or the stopped tracks and the attempt. */
  function StartLog(o: StartInputs): seq<Step>
  {
    [SetConnecting(true), SetOpen(false), RequestMicrophone]
    + if o.permission then [StopTracks] + AttemptLog(o)
      else [Alert(MicrophoneRequiredAlert), SetConnecting(false)]
  }

  /** The spinner is on and the sidebar closed before anything leaves the
      page, and the spinner is off at the end. */
  lemma StartLogFrame(o: StartInputs)
    ensures var log := StartLog(o);
      && |log| >= 5 && log[0] == SetConnecting(true) && log[1] == SetOpen(false)
      && !External(log[0]) && !External(log[1]) && log[2] == RequestMicrophone
      && log[|log| - 1] == SetConnecting(false)
  {
  }

  /** A denied microphone alerts and calls nothing else; any later failure
      alerts `Failed to start session` just before the spinner is cleared. */
  lemma StartLogAlerts(o: StartInputs)
    ensures !o.permission ==>
      StartLog(o) == [SetConnecting(true), SetOpen(false), RequestMicrophone,
                      Alert(MicrophoneRequiredAlert), SetConnecting(false)]
    ensures o.permission && !StartSucceeds(o) ==> StartLog(o)[|StartLog(o)| - 2] == Alert(SessionFailedAlert)
    ensures StartSucceeds(o) ==>
      StartLog(o) == [SetConnecting(true), SetOpen(false), RequestMicrophone, StopTracks,
                      Send(CreateRequest(o)), Connect(o.serverUrl.value, o.session.data.value.token),
                      EnableMicrophone, SetSessionStarted(true), SetConnecting(false)]
  {
  }

  /** The create-session request is sent iff the microphone was granted and
      the server URL is truthy, and the room is connected iff every check
      before `room.connect` passes. */
  lemma {:induction false} StartLogCalls(o: StartInputs)
    ensures Creates(StartLog(o)) <==> o.permission && Truthy(o.serverUrl)
    ensures Connects(StartLog(o)) <==> ReachesConnect(o)
  {
    var log := StartLog(o);
    if o.permission && Truthy(o.serverUrl) {
      assert log[4] == Send(CreateRequest(o));
    }
    if ReachesConnect(o) {
      assert log[5] == Connect(o.serverUrl.value, o.session.data.value.token);
    }
  }

  /** At most one create-session request per attempt, and the start branch
      never disconnects the room: a failed microphone enable leaves it
      connected. */
  lemma StartLogOnce(o: StartInputs)
    ensures forall i, j :: 0 <= i < j < |StartLog(o)| && StartLog(o)[i].Send? ==> !StartLog(o)[j].Send?
    ensures Disconnect !in StartLog(o)
  {
  }

  /** The log reports a started session exactly when every step succeeded. */
  lemma StartLogReportsSuccess(o: StartInputs)
    ensures SetSessionStarted(true) in StartLog(o) <==> StartSucceeds(o)
    ensures SetSessionStarted(false) !in StartLog(o)
  {
  }

  class DashboardPage {
    var isAuthenticated: bool
    var user: Option<User>
    var open: bool
    var sessionStarted: bool
    var isConnecting: bool

    constructor ()
      ensures !isAuthenticated && user.None? && !open && !sessionStarted && !isConnecting
    {
      isAuthenticated, user, open := false, None, false;
      sessionStarted, isConnecting := false, false;
    }

    /** The authentication effect: `token` and `userData` are what
        `localStorage` holds under 'auth_token' and 'user'.  Returns the
        route navigated to, and whether `JSON.parse(userData)` threw, which
        leaves the effect after `isAuthenticated` was already set. */
    method CheckAuthentication(token: Option<string>, userData: Stored<User>) returns (navigate: Option<string>, threw: bool)
      modifies this
      ensures open == old(open) && sessionStarted == old(sessionStarted) && isConnecting == old(isConnecting)
      ensures navigate.Some? <==> !Truthy(token) || !userData.Present()
      ensures navigate.Some? ==>
        navigate.value == SignInRoute && !threw
        && isAuthenticated == old(isAuthenticated) && user == old(user)
      ensures navigate.None? ==> isAuthenticated
      ensures navigate.None? ==> (threw <==> userData.parsed.None?)
      ensures navigate.None? && !threw ==> user == userData.parsed
      ensures threw ==> user == old(user)
    {
      if !Truthy(token) || !userData.Present() {
        return Some(SignInRoute), false;
      }
      navigate := None;
      isAuthenticated := true;
      if userData.parsed.None? {
        return navigate, true;
      }
      user := userData.parsed;
      threw := false;
    }

    /** The room's Disconnected event. */
    method OnDisconnected()
      modifies this
      ensures !sessionStarted && !isConnecting
      ensures isAuthenticated == old(isAuthenticated) && user == old(user) && open == old(open)
    {
      sessionStarted := false;
      isConnecting := false;
    }

    /** The room's MediaDevicesError event: it only logs the message. */
    method OnMediaDevicesError(message: string)
      ensures sessionStarted == old(sessionStarted) && isConnecting == old(isConnecting)
    {
    }

    /** The body of the `try` once microphone permission was granted:
        check the server URL, create a session, connect, enable the
        microphone.  Any failure throws into the `catch`, which alerts and
        clears the spinner.  `rest` lists what happened, in order. */
    method AttemptStart(o: StartInputs) returns (rest: seq<Step>)
      requires o.permission
      modifies this
      ensures rest == AttemptLog(o)
      ensures StartSucceeds(o) ==> sessionStarted
      ensures !StartSucceeds(o) ==> sessionStarted == old(sessionStarted)
      ensures isAuthenticated == old(isAuthenticated) && user == old(user) && open == old(open)
      ensures !isConnecting
    {
      rest := [];
      var failed := false;
      if !Truthy(o.serverUrl) {
        failed := true;
      } else {
        rest := rest + [Send(CreateRequest(o))];
        if Truthy(o.session.error) || o.session.data.None? {
          failed := true;
        } else {
          rest := rest + [Connect(o.serverUrl.value, o.session.data.value.token)];
          if !o.connected {
            failed := true;
          } else {
            rest := rest + [EnableMicrophone];
            if !o.microphone {
              failed := true;
            } else {
              sessionStarted := true;
              rest := rest + [SetSessionStarted(true)];
            }
          }
        }
      }
      if failed {
        rest := rest + [Alert(SessionFailedAlert)];
      }
      isConnecting := false;
      rest := rest + [SetConnecting(false)];
    }

    /** `handleSessionState` with the room in state `roomState`: stop the
        running session, or go through the start attempt whose external
        outcomes `o` gives.  `log` lists what the handler did, in order. */
    method HandleSessionState(roomState: RoomState, o: StartInputs) returns (log: seq<Step>)
      modifies this
      ensures isAuthenticated == old(isAuthenticated) && user == old(user)
      ensures !isConnecting
      // Stopping.
      ensures old(sessionStarted) && roomState == RoomConnected ==>
        && log == [Disconnect, SetSessionStarted(false), SetConnecting(false)]
        && !sessionStarted && open == old(open)
      // Starting.
      ensures !(old(sessionStarted) && roomState == RoomConnected) ==>
        && log == StartLog(o) && !open
        && (StartSucceeds(o) ==> sessionStarted)
        && (!StartSucceeds(o) ==> sessionStarted == old(sessionStarted))
    {
      if sessionStarted && roomState == RoomConnected {
        log := [Disconnect];
        sessionStarted := false;
        log := log + [SetSessionStarted(false)];
        isConnecting := false;
        return log + [SetConnecting(false)];
      }
      isConnecting := true;
      log := [SetConnecting(true)];
      open := false;
      log := log + [SetOpen(false)];
      // checkMediaPermissions()
      log := log + [RequestMicrophone];
      if !o.permission {
        log := log + [Alert(MicrophoneRequiredAlert)];
        isConnecting := false;
        return log + [SetConnecting(false)];
      }
      log := log + [StopTracks];
      var rest := AttemptStart(o);
      log := log + rest;
    }
  }
}
