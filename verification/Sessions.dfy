/** Agent/SessionAgent.cpp: the sessions of one channel, by session identifier. */
module Sessions {
  import opened Bytes

  type Id = nat

  datatype Kind = Play | Playback | Download {
    function Name(): string {
      match this
      case Play => "Play"
      case Playback => "Playback"
      case Download => "Download"
    }
  }

  datatype Session = Session(kind: Kind, subject: string, started: bool)

  /** A medium of the SDP: its type and the payload types it offers. */
  datatype Offer = Offer(kind: string, payloads: seq<nat>)

  /** What an INVITE brings: the SDP session name, the Subject header and the media; with
      the payload types of what the device encodes now, if it encodes anything known. */
  datatype Request = Request(name: string, subjectHeader: string, offers: seq<Offer>,
                             video: Option<nat>, audio: Option<nat>)

  /** The SIP answer attempted for a session identifier. */
  datatype Answer = Answer(id: Id, code: int)

  datatype Channel = Channel(sessions: map<Id, Session>, answers: seq<Answer>)

  // ----- media -----

  const PROGRAM_STREAM := 96

  function Offered(o: Offer, payload: Option<nat>): Option<nat> {
    if payload.Some? && payload.value in o.payloads then payload else None
  }

  /** addMedia: program streams are preferred for video. */
  function Choose(o: Offer, video: Option<nat>, audio: Option<nat>): Option<nat> {
    if o.kind == "video" then
      if PROGRAM_STREAM in o.payloads then Some(PROGRAM_STREAM) else Offered(o, video)
    else if o.kind == "audio" then Offered(o, audio)
    else None
  }

  /** The payload types of the media a session gets. */
  function Served(offers: seq<Offer>, video: Option<nat>, audio: Option<nat>): seq<nat> {
    if offers == [] then []
    else
      var before, p := Served(offers[..|offers| - 1], video, audio), Choose(offers[|offers| - 1], video, audio);
      if p.Some? then before + [p.value] else before
  }

  /** Some medium of the request can be served. */
  ghost predicate CanServe(req: Request) {
    exists i :: 0 <= i < |req.offers| && (
      || (req.offers[i].kind == "video" &&
            (PROGRAM_STREAM in req.offers[i].payloads || (req.video.Some? && req.video.value in req.offers[i].payloads)))
      || (req.offers[i].kind == "audio" && req.audio.Some? && req.audio.value in req.offers[i].payloads))
  }

  /** A session gets media exactly when one of those offered is a video with program
      streams or with what the device encodes, or an audio with what it encodes; and it
      gets no payload type that was not offered. */
  lemma ServedMeans(req: Request)
    ensures Served(req.offers, req.video, req.audio) != [] <==> CanServe(req)
    ensures forall p :: p in Served(req.offers, req.video, req.audio) ==>
              exists i :: 0 <= i < |req.offers| && p in req.offers[i].payloads
  {
    SomeServed(req.offers, req.video, req.audio);
    forall i | 0 <= i < |req.offers| ensures Choose(req.offers[i], req.video, req.audio).Some? ==>
                                                Choose(req.offers[i], req.video, req.audio).value in req.offers[i].payloads
    {}
  }

  lemma {:induction false} SomeServed(offers: seq<Offer>, video: Option<nat>, audio: Option<nat>)
    ensures Served(offers, video, audio) != [] <==> exists i :: 0 <= i < |offers| && Choose(offers[i], video, audio).Some?
    ensures forall p :: p in Served(offers, video, audio) ==>
              exists i :: 0 <= i < |offers| && Choose(offers[i], video, audio) == Some(p)
  {
    hide Choose;
    if offers != [] {
      var n := |offers| - 1;
      var front := offers[..n];
      SomeServed(front, video, audio);
      assert forall i :: 0 <= i < n ==> front[i] == offers[i];
    }
  }

  /** What is chosen for a medium: for video program streams whenever they are offered, else
      what the device encodes; for audio what it encodes. */
  ghost predicate Fits(o: Offer, video: Option<nat>, audio: Option<nat>, p: nat) {
    && p in o.payloads
    && ((o.kind == "video" && p == 96) || (o.kind == "video" && 96 !in o.payloads && video == Some(p))
        || (o.kind == "audio" && audio == Some(p)))
  }

  /** The media of a session are those chosen for the offers that have one, in their order. */
  lemma ServedAre(offers: seq<Offer>, video: Option<nat>, audio: Option<nat>, o: Offer)
    ensures var before, after := Served(offers, video, audio), Served(offers + [o], video, audio);
            && (forall p: nat :: Fits(o, video, audio, p) ==> after == before + [p])
            && ((forall p: nat :: !Fits(o, video, audio, p)) ==> after == before)
  {
    assert (offers + [o])[..|offers|] == offers;
    assert forall p: nat :: Choose(o, video, audio) == Some(p) <==> Fits(o, video, audio, p);
  }

  // ----- names and subjects -----

  function Lower(c: char): char {
    if 'A' <= c <= 'Z' then c - 'A' + 'a' else c
  }

  /** strCaseCmp. */
  predicate SameName(a: string, b: string) {
    |a| == |b| && forall i :: 0 <= i < |a| ==> Lower(a[i]) == Lower(b[i])
  }

  function Comma(s: string): (n: nat)
    ensures n <= |s|
  {
    if s == "" || s[0] == ',' then 0 else 1 + Comma(s[1..])
  }

  /** The sender of the media stream: what precedes the first comma, if there is one. */
  function ParseSubject(header: string): string {
    if Comma(header) == |header| then "" else header[..Comma(header)]
  }

  /** The sender is what stands before a comma, without one in it; no comma, no sender. */
  lemma {:induction false} SubjectReads(sender: string, rest: string)
    requires forall i :: 0 <= i < |sender| ==> sender[i] != ','
    ensures ParseSubject(sender + "," + rest) == sender && ParseSubject(sender) == ""
  {
    CommaAt(sender, rest);
    assert (sender + "," + rest)[..|sender|] == sender;
  }

  lemma {:induction false} CommaAt(sender: string, rest: string)
    requires forall i :: 0 <= i < |sender| ==> sender[i] != ','
    ensures Comma(sender + "," + rest) == |sender| && Comma(sender) == |sender|
  {
    if sender == "" {
      assert (sender + "," + rest)[0] == ',';
    } else {
      CommaAt(sender[1..], rest);
      assert (sender + "," + rest)[1..] == sender[1..] + "," + rest;
    }
  }

  /** Session::create compares the name exactly. */
  function KindOf(name: string): Option<Kind> {
    if name == "Play" then Some(Play)
    else if name == "Playback" then Some(Playback)
    else if name == "Download" then Some(Download)
    else None
  }

  ghost predicate NameTaken(m: map<Id, Session>, name: string) {
    exists id :: id in m && SameName(m[id].kind.Name(), name)
  }

  /** Without the session that sends this media source. */
  ghost function Released(m: map<Id, Session>, subject: string): map<Id, Session> {
    if subject == "" then m else map id | id in m && m[id].subject != subject :: m[id]
  }

  // ----- the requests -----

  /** `sip`: the SIP agent is alive. */
  datatype Step = Invite(id: Id, req: Request, sip: bool) | Ack(id: Id, deviceOk: bool) | Bye(id: Id)

  ghost function InviteAnswer(m: map<Id, Session>, req: Request): int {
    if NameTaken(Released(m, ParseSubject(req.subjectHeader)), req.name) then 486
    else if KindOf(req.name).Some? && Served(req.offers, req.video, req.audio) != [] then 200
    else 488
  }

  ghost function DoInvite(c: Channel, id: Id, req: Request): Channel {
    var subject := ParseSubject(req.subjectHeader);
    var m, code := Released(c.sessions, subject), InviteAnswer(c.sessions, req);
    Channel(if code == 200 then m[id := Session(KindOf(req.name).value, subject, false)] else m,
            c.answers + [Answer(id, code)])
  }

  ghost function DoAck(m: map<Id, Session>, id: Id, deviceOk: bool): map<Id, Session> {
    if id in m && deviceOk then m[id := m[id].(started := true)] else m
  }

  ghost function Next(c: Channel, s: Step): Channel {
    match s
    case Invite(id, req, sip) => if sip then DoInvite(c, id, req) else c
    case Ack(id, ok) => c.(sessions := DoAck(c.sessions, id, ok))
    case Bye(id) => c.(sessions := c.sessions - {id})
  }

  ghost function Run(steps: seq<Step>): Channel {
    if steps == [] then Channel(map[], []) else Next(Run(steps[..|steps| - 1]), steps[|steps| - 1])
  }

  // ----- what every run keeps -----

  /** Names are pairwise distinct, and so are the subjects that are not empty. */
  ghost predicate Unique(m: map<Id, Session>) {
    forall a, b :: a in m && b in m && a != b ==>
      m[a].kind != m[b].kind && (m[a].subject != "" ==> m[a].subject != m[b].subject)
  }

  lemma KindNames(k: Kind, name: string)
    ensures KindOf(name) == Some(k) <==> name == k.Name()
    ensures SameName(k.Name(), name) && KindOf(name).Some? ==> KindOf(name) == Some(k)
    ensures SameName(name, name)
  {
    Initials();
    if KindOf(name).Some? { assert name == KindOf(name).value.Name(); }
  }

  /** No two of the names have both the length and the first letter in common. */
  lemma Initials()
    ensures forall a: Kind, b: Kind :: SameName(a.Name(), b.Name()) ==> a == b
  {
    assert Lower("Playback"[0]) != Lower("Download"[0]);
    forall a: Kind, b: Kind | SameName(a.Name(), b.Name()) ensures a == b {
      assert |a.Name()| == |b.Name()| && Lower(a.Name()[0]) == Lower(b.Name()[0]);
    }
  }

  lemma ReleasedUnique(m: map<Id, Session>, subject: string)
    requires Unique(m)
    ensures Unique(Released(m, subject))
    ensures subject != "" ==> forall id :: id in Released(m, subject) ==> Released(m, subject)[id].subject != subject
  {}

  lemma InviteKeeps(c: Channel, id: Id, req: Request)
    requires Unique(c.sessions)
    ensures Unique(DoInvite(c, id, req).sessions)
  {
    var subject := ParseSubject(req.subjectHeader);
    var m := Released(c.sessions, subject);
    ReleasedUnique(c.sessions, subject);
    if InviteAnswer(c.sessions, req) == 200 {
      var kind := KindOf(req.name).value;
      forall a | a in m ensures m[a].kind != kind {
        KindNames(m[a].kind, req.name);
      }
    }
  }

  /** Over every run of INVITE, ACK and BYE. */
  lemma {:induction false} RunUnique(steps: seq<Step>)
    ensures Unique(Run(steps).sessions)
  {
    if steps != [] {
      var front, s := steps[..|steps| - 1], steps[|steps| - 1];
      RunUnique(front);
      if s.Invite? && s.sip { InviteKeeps(Run(front), s.id, s.req); }
    }
  }

  /** At most one session of each kind. */
  lemma AtMostThree(m: map<Id, Session>)
    requires Unique(m)
    ensures |m| <= 3
  {
    var kinds := set id | id in m :: m[id].kind;
    assert kinds <= {Play, Playback, Download};
    SubsetSize(kinds, {Play, Playback, Download});
    SameSize(m.Keys, m);
    assert |{Play, Playback, Download}| == 3;
  }

  lemma {:induction false} SubsetSize<T>(a: set<T>, b: set<T>)
    requires a <= b
    ensures |a| <= |b|
  {
    if a != {} {
      var x :| x in a;
      SubsetSize(a - {x}, b - {x});
    }
  }

  lemma {:induction false} SameSize(ids: set<Id>, m: map<Id, Session>)
    requires Unique(m) && ids <= m.Keys
    ensures |ids| == |set id | id in ids :: m[id].kind|
  {
    if ids != {} {
      var x :| x in ids;
      SameSize(ids - {x}, m);
      var kinds := set id | id in ids :: m[id].kind;
      assert kinds - {m[x].kind} == set id | id in ids - {x} :: m[id].kind;
    }
  }

  /** An ACK that started the device came since the session was set up. */
  ghost predicate AckedSince(steps: seq<Step>, id: Id) {
    if steps == [] then false
    else
      var front := steps[..|steps| - 1];
      match steps[|steps| - 1]
      case Invite(i, req, sip) =>
        AckedSince(front, id) && !(sip && i == id && InviteAnswer(Run(front).sessions, req) == 200)
      case Ack(i, ok) => AckedSince(front, id) || (i == id && ok && id in Run(front).sessions)
      case Bye(i) => AckedSince(front, id) && i != id
  }

  /** A session is started exactly when an ACK for it started the device: never by the
      INVITE alone. */
  lemma {:induction false} StartedByAck(steps: seq<Step>, id: Id)
    ensures var m := Run(steps).sessions;
            id in m ==> (m[id].started <==> AckedSince(steps, id))
  {
    if steps != [] {
      StartedByAck(steps[..|steps| - 1], id);
    }
  }

  /** A session as it was set up: by name and by the sender of its media. */
  datatype Setup = Setup(name: string, subject: string)

  /** What the last INVITE for `id` answered with 200 set up, unless a BYE for `id` followed
      it, or an INVITE that was handled and named the same sender. */
  ghost function Held(steps: seq<Step>, id: Id): Option<Setup> {
    if steps == [] then None
    else
      var front := steps[..|steps| - 1];
      match steps[|steps| - 1]
      case Invite(i, req, sip) =>
        var sender := ParseSubject(req.subjectHeader);
        if !sip then Held(front, id)
        else if i == id && InviteAnswer(Run(front).sessions, req) == 200 then Some(Setup(req.name, sender))
        else if sender != "" && Held(front, id).Some? && Held(front, id).value.subject == sender then None
        else Held(front, id)
      case Ack(_, _) => Held(front, id)
      case Bye(i) => if i == id then None else Held(front, id)
  }

  /** Over every run the channel has exactly the sessions that were set up and not ended:
      every other step leaves a session, its kind and its sender alone. */
  lemma {:induction false} SessionsAre(steps: seq<Step>, id: Id)
    ensures var m := Run(steps).sessions;
            && (id in m <==> Held(steps, id).Some?)
            && (id in m ==> Held(steps, id) == Some(Setup(m[id].kind.Name(), m[id].subject)))
  {
    if steps != [] {
      var front, s := steps[..|steps| - 1], steps[|steps| - 1];
      SessionsAre(front, id);
      if s.Invite? && s.sip {
        InviteHolds(Run(front), s.id, s.req, id);
        hide InviteAnswer, DoInvite;
      }
    }
  }

  /** What an INVITE does to one identifier. */
  lemma InviteHolds(c: Channel, i: Id, req: Request, id: Id)
    ensures var m, n, sender := c.sessions, DoInvite(c, i, req).sessions, ParseSubject(req.subjectHeader);
            if i == id && InviteAnswer(m, req) == 200
            then id in n && n[id].kind.Name() == req.name && n[id].subject == sender
            else if id in m && sender != "" && m[id].subject == sender then id !in n
            else (id in n <==> id in m) && (id in m ==> n[id] == m[id])
  {}

  // ----- the lookups that depend on it -----

  /** Any session with this name: the one notifyFileEnd reports for. */
  ghost predicate NotifyTarget(m: map<Id, Session>, name: string, id: Id) {
    id in m && SameName(m[id].kind.Name(), name)
  }

  /** Any session that takes MANSRTSP requests. */
  ghost predicate RtspTarget(m: map<Id, Session>, id: Id) {
    id in m && m[id].kind == Playback
  }

  /** A session that ends its file is the only one its own name finds, so the walk over
      the map reports for itself; and one session at most takes MANSRTSP requests: the one
      set up for playback. */
  lemma TargetsUnique(steps: seq<Step>, a: Id, b: Id)
    ensures var m := Run(steps).sessions;
            && (a in m && NotifyTarget(m, m[a].kind.Name(), b) ==> a == b)
            && (a in m ==> NotifyTarget(m, m[a].kind.Name(), a))
            && (RtspTarget(m, a) && RtspTarget(m, b) ==> a == b)
            && (RtspTarget(m, a) <==> Held(steps, a).Some? && Held(steps, a).value.name == "Playback")
  {
    RunUnique(steps);
    SessionsAre(steps, a);
    var m := Run(steps).sessions;
    if a in m {
      KindNames(m[a].kind, m[a].kind.Name());
      if b in m { KindNames(m[b].kind, m[a].kind.Name()); }
    }
  }

  /** Annex K: a media source that is already sent in a session of the kind asked for is
      released and set up anew, never refused for being there. */
  lemma SameSource(steps: seq<Step>, was: Id, id: Id, req: Request)
    requires var m := Run(steps).sessions;
             && was in m && m[was].subject != "" && m[was].subject == ParseSubject(req.subjectHeader)
             && req.name == m[was].kind.Name() && CanServe(req)
    ensures var m, r := Run(steps).sessions, Run(steps + [Invite(id, req, true)]);
            && r.answers == Run(steps).answers + [Answer(id, 200)]
            && r.sessions.Keys == (m.Keys - {was}) + {id}
            && r.sessions[id] == Session(m[was].kind, m[was].subject, false)
            && (forall i :: i in r.sessions && r.sessions[i].subject == m[was].subject ==> i == id)
  {
    RunUnique(steps);
    ServedMeans(req);
    var m := Run(steps).sessions;
    var r := Released(m, m[was].subject);
    KindNames(m[was].kind, req.name);
    forall i | i in r ensures !SameName(r[i].kind.Name(), req.name) {
      KindNames(m[i].kind, req.name);
    }
    assert r.Keys == m.Keys - {was};
    assert (steps + [Invite(id, req, true)])[..|steps|] == steps;
  }

  /** The identifiers of the INVITEs handled with a live SIP agent. */
  function Invited(steps: seq<Step>): seq<Id> {
    if steps == [] then []
    else
      var before, s := Invited(steps[..|steps| - 1]), steps[|steps| - 1];
      if s.Invite? && s.sip then before + [s.id] else before
  }

  /** The codes they are to be answered with, at the time each of them comes. */
  ghost function Codes(steps: seq<Step>): seq<int> {
    if steps == [] then []
    else
      var before, s := Codes(steps[..|steps| - 1]), steps[|steps| - 1];
      if s.Invite? && s.sip then before + [InviteAnswer(Run(steps[..|steps| - 1]).sessions, s.req)] else before
  }

  /** Each of them attempts exactly one answer: the one of 200, 486 and 488 that is due. */
  lemma {:induction false} OneAnswer(steps: seq<Step>)
    ensures var answers := Run(steps).answers;
            && |answers| == |Invited(steps)| == |Codes(steps)|
            && forall i :: 0 <= i < |answers| ==>
                 answers[i] == Answer(Invited(steps)[i], Codes(steps)[i]) && answers[i].code in {200, 486, 488}
  {
    if steps != [] { OneAnswer(steps[..|steps| - 1]); }
  }

  /** None of the three names as written. */
  predicate Unknown(name: string) {
    name != "Play" && name != "Playback" && name != "Download"
  }

  lemma UnknownIs(name: string)
    ensures Unknown(name) <==> KindOf(name).None?
  {}

  /** 486 exactly when some other sender's session has the name asked for, in any case of
      letters; 488 exactly when none has but the name is not one of the three as written,
      or no medium can be served. */
  lemma AnswerMeans(m: map<Id, Session>, req: Request)
    ensures var subject := ParseSubject(req.subjectHeader);
            var taken := exists a :: a in m && SameName(m[a].kind.Name(), req.name) && (subject == "" || m[a].subject != subject);
            && (InviteAnswer(m, req) == 486 <==> taken)
            && (InviteAnswer(m, req) == 488 <==> !taken && (!CanServe(req) || Unknown(req.name)))
  {
    ServedMeans(req);
    hide Served, CanServe;
    var subject := ParseSubject(req.subjectHeader);
    var r := Released(m, subject);
    if a :| a in m && SameName(m[a].kind.Name(), req.name) && (subject == "" || m[a].subject != subject) {
      assert a in r && r[a] == m[a];
    }
    UnknownIs(req.name);
    hide Unknown, KindOf;
  }

  /** The name in other letters meets the refusal test but not the constructor's. */
  lemma OtherLetters()
    ensures SameName("Play", "play") && KindOf("play").None?
    ensures var req := Request("play", "", [Offer("video", [PROGRAM_STREAM])], None, None);
            && CanServe(req) && InviteAnswer(map[], req) == 488
            && InviteAnswer(map[1 := Session(Play, "", true)], req) == 486
  {
    var o := Offer("video", [PROGRAM_STREAM]);
    assert [o][0] == o && o.kind == "video";
    assert "Play"[0] == 'P' && "play"[0] == 'p' && Lower('P') == 'p';
    assert "play" != "Playback" && "play" != "Download";
    var m: map<Id, Session> := map[1 := Session(Play, "", true)];
    assert 1 in m && m[1].kind.Name() == "Play";
  }
}
