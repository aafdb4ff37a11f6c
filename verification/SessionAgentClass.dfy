/** The session agent of one channel, Agent/SessionAgent.cpp, with its map and loops. */
module SessionAgentClass {
  import opened Bytes
  import opened Sessions

  class SessionAgent {
    var sessions: map<Id, Session>
    /** The answers handed to the SIP agent. */
    var answers: seq<Answer>

    ghost function Model(): Channel
      reads this
    {
      Channel(sessions, answers)
    }

    ghost predicate Valid()
      reads this
    {
      Unique(sessions)
    }

    constructor ()
      ensures Valid() && Model() == Channel(map[], [])
    {
      sessions, answers := map[], [];
    }

    /** isSessionExist: the walk over the map. */
    method IsSessionExist(name: string) returns (found: bool)
      ensures found <==> NameTaken(sessions, name)
    {
      var todo := sessions.Keys;
      while todo != {}
        invariant todo <= sessions.Keys
        invariant forall id :: id in sessions && id !in todo ==> !SameName(sessions[id].kind.Name(), name)
      {
        var id :| id in todo;
        if SameName(sessions[id].kind.Name(), name) { return true; }
        todo := todo - {id};
      }
      found := false;
    }

    /** The session that sends this media source is stopped and erased; the walk ends
        there, and there is no other. */
    method Release(subject: string)
      requires Valid()
      modifies this`sessions
      ensures Valid() && sessions == Released(old(sessions), subject)
    {
      if subject == "" { return; }
      var todo := sessions.Keys;
      while todo != {}
        invariant todo <= sessions.Keys && sessions == old(sessions)
        invariant forall id :: id in sessions && id !in todo ==> sessions[id].subject != subject
      {
        var id :| id in todo;
        if sessions[id].subject == subject {
          sessions := sessions - {id};
          assert sessions == Released(old(sessions), subject);
          return;
        }
        todo := todo - {id};
      }
      assert sessions == Released(old(sessions), subject);
    }

    /** The loop of createSession over the media of the request, with addMedia. */
    method AddMedia(req: Request) returns (media: seq<nat>)
      ensures media == Served(req.offers, req.video, req.audio)
    {
      media := [];
      for i := 0 to |req.offers|
        invariant media == Served(req.offers[..i], req.video, req.audio)
      {
        var o := req.offers[i];
        assert req.offers[..i + 1][..i] == req.offers[..i];
        if o.kind == "video" {
          if PROGRAM_STREAM in o.payloads {
            media := media + [PROGRAM_STREAM];
          } else if req.video.Some? && req.video.value in o.payloads {
            media := media + [req.video.value];
          }
        } else if o.kind == "audio" && req.audio.Some? && req.audio.value in o.payloads {
          media := media + [req.audio.value];
        }
      }
      assert req.offers[..|req.offers|] == req.offers;
    }

    method DispatchInvite(id: Id, req: Request, sip: bool) returns (ok: bool)
      requires Valid()
      modifies this
      ensures Valid() && Model() == Next(old(Model()), Invite(id, req, sip))
      ensures ok <==> sip && InviteAnswer(old(sessions), req) == 200
    {
      hide Unique, Released;
      if !sip { return false; }
      InviteKeeps(Model(), id, req);
      var subject := ParseSubject(req.subjectHeader);
      Release(subject);
      var taken := IsSessionExist(req.name);
      if taken {
        answers := answers + [Answer(id, 486)];
        return false;
      }
      var kind := KindOf(req.name);
      var media := AddMedia(req);
      if kind.Some? && |media| != 0 {
        answers := answers + [Answer(id, 200)];
        sessions := sessions[id := Session(kind.value, subject, false)];
        return true;
      }
      answers := answers + [Answer(id, 488)];
      ok := false;
    }

    method DispatchAck(id: Id, deviceOk: bool) returns (ok: bool)
      requires Valid()
      modifies this
      ensures Valid() && Model() == Next(old(Model()), Ack(id, deviceOk))
      ensures ok <==> id in old(sessions) && deviceOk && !old(sessions)[id].started
    {
      if id !in sessions || !deviceOk { return false; }
      ok := !sessions[id].started;
      sessions := sessions[id := sessions[id].(started := true)];
    }

    method DispatchBye(id: Id) returns (ok: bool)
      requires Valid()
      modifies this
      ensures Valid() && Model() == Next(old(Model()), Bye(id)) && (ok <==> id in old(sessions))
    {
      ok := id in sessions;
      sessions := sessions - {id};
    }

    /** notifyFileEnd: whom the end of a file is reported for. */
    method NotifyFileEnd(name: string) returns (target: Option<Id>)
      requires Valid()
      ensures target.Some? ==> NotifyTarget(sessions, name, target.value)
      ensures target.None? ==> !NameTaken(sessions, name)
      ensures forall id: Id :: id in sessions && sessions[id].kind.Name() == name ==> target == Some(id)
    {
      var todo := sessions.Keys;
      while todo != {}
        invariant todo <= sessions.Keys
        invariant forall id :: id in sessions && id !in todo ==> !SameName(sessions[id].kind.Name(), name)
      {
        var id :| id in todo;
        if SameName(sessions[id].kind.Name(), name) {
          OnlyOne(sessions, name, id);
          return Some(id);
        }
        todo := todo - {id};
      }
      target := None;
    }

    /** dispatchMANSRTSP: the session that takes the request. */
    method DispatchMansRtsp() returns (target: Option<Id>)
      requires Valid()
      ensures forall id: Id :: RtspTarget(sessions, id) <==> target == Some(id)
    {
      var todo := sessions.Keys;
      while todo != {}
        invariant todo <= sessions.Keys
        invariant forall id :: id in sessions && id !in todo ==> sessions[id].kind != Playback
      {
        var id :| id in todo;
        if sessions[id].kind == Playback { return Some(id); }
        todo := todo - {id};
      }
      target := None;
    }
  }

  lemma OnlyOne(m: map<Id, Session>, name: string, id: Id)
    requires Unique(m) && id in m && SameName(m[id].kind.Name(), name)
    ensures forall a :: a in m && m[a].kind.Name() == name ==> a == id
  {
    forall a | a in m && m[a].kind.Name() == name ensures a == id {
      KindNames(m[a].kind, name);
      KindNames(m[id].kind, name);
    }
  }
}
