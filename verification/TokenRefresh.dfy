/**
 The 401 path of the portal client: refresh, write-back and the single retry
 (cmd/jamsesh/portalclient/refresh.go and client.go).
 */
module TokenRefresh {
  import opened Wrappers
  import opened CredentialStore

  datatype Pair = Pair(access: string, refresh: string)

  /** Where the refreshed access token goes. */
  function WriteBack(sessionID: string, bound: Option<string>): Path {
    if sessionID != "" then SessionToken(sessionID)
    else if bound.Some? then SessionToken(bound.value)
    else Token
  }

  /** A new access token is on disk only with the refresh token that came with it. */
  ghost predicate Paired(fs: Files, before: Files, target: Path, pair: Pair) {
    Read(fs, target) != Read(before, target) ==> Read(fs, RefreshToken) == Success(pair.refresh)
  }

  ghost predicate PairedSince(history: seq<Files>, mark: seq<Files>, before: Files, target: Path, pair: Pair) {
    mark <= history && forall i | |mark| <= i < |history| :: Paired(history[i], before, target, pair)
  }

  class Refresher {
    const sessionID: string
    const ccID: string    // CLAUDE_SESSION_ID
    const dir: DataDir

    constructor (dir: DataDir, sessionID: string, ccID: string)
      ensures this.dir == dir && this.sessionID == sessionID && this.ccID == ccID
    {
      this.dir, this.sessionID, this.ccID := dir, sessionID, ccID;
    }

    /** doRefresh. `reply` is the decoded 200 response to the stored refresh token, if there is one. */
    method Refresh(reply: Option<Pair>) returns (ok: bool, ghost bound: Option<string>)
      modifies dir
      ensures bound.Some? ==> BoundTo(old(dir.files), old(dir.dirs), ccID, bound.value)
      ensures bound.None? ==> forall x :: !BoundTo(old(dir.files), old(dir.dirs), ccID, x)
      ensures reply.Some? ==>
                && PairedSince(dir.history, old(dir.history), old(dir.files), WriteBack(sessionID, bound), reply.value)
                && Paired(dir.files, old(dir.files), WriteBack(sessionID, bound), reply.value)
      ensures !ok && reply.None? ==> dir.files == old(dir.files) && dir.history == old(dir.history)
      ensures ok ==> reply.Some? && Refreshed(dir.files, old(dir.files), WriteBack(sessionID, bound), reply.value)
    {
      // Looked up here rather than after the refresh-token write, which leaves the binding's files alone.
      var b := dir.CurrentSessionID(ccID);
      bound := b;
      if Read(dir.files, RefreshToken).Failure? || reply.None? || reply.value.access == "" || reply.value.refresh == "" {
        return false, bound;
      }
      var pair := reply.value;
      var target := WriteBack(sessionID, b);
      ok := dir.Write(RefreshToken, pair.refresh);
      ghost var mid, mark := dir.files, dir.history;
      assert forall i | |old(dir.history)| <= i < |mark| ::
          Read(mark[i], target) == Read(old(dir.files), target);
      if !ok {
        return false, bound;
      }
      if sessionID != "" {
        ok := dir.WriteSessionToken(sessionID, pair.access);
      } else if b.Some? {
        ok := dir.WriteSessionToken(b.value, pair.access);
      } else {
        ok := dir.Write(Token, pair.access);
      }
      assert forall i | |mark| <= i < |dir.history| :: Read(dir.history[i], RefreshToken) == Success(pair.refresh);
    }
  }

  /**
   After a successful refresh by a refresher that shares the client's SessionID, the
   retry reads the new token if and only if the client is scoped to a session, or no
   session is bound, or the legacy bearer happens to be the new token.
   */
  lemma {:induction false} RetryReadsNewToken(fs: Files, before: Files, sessionID: string, bound: Option<string>, access: string)
    requires Read(fs, WriteBack(sessionID, bound)) == Success(access)
    requires forall p: Path | !p.Temp? && p != RefreshToken && p != WriteBack(sessionID, bound) ::
               Read(fs, p) == Read(before, p)
    ensures Bearer(fs, sessionID) == Success(TrimSpace(access)) <==>
            sessionID != "" || bound.None? || Trimmed(Read(before, Token)) == Success(TrimSpace(access))
  {
  }

  /** What a successful refresh leaves, given where it writes the access token back to. */
  ghost predicate Refreshed(fs: Files, before: Files, target: Path, pair: Pair) {
    && pair.access != "" && pair.refresh != "" && Read(before, RefreshToken).Success?
    && Read(fs, RefreshToken) == Success(pair.refresh) && Read(fs, target) == Success(pair.access)
    && forall p: Path | !p.Temp? && p != RefreshToken && p != target :: Read(fs, p) == Read(before, p)
  }

  /** The bound-but-unscoped case: after a successful refresh the retry carries the stale account-wide token. */
  lemma {:induction false} BoundUnscopedWitness()
    ensures var before: Files := map[Token := Text("old"), RefreshToken := Text("r1"), InstanceId("s") := Text("cc")];
            var fs := before[SessionToken("s") := Text("new")][RefreshToken := Text("r2")];
            && BoundTo(before, {"s"}, "cc", "s")
            && Refreshed(fs, before, WriteBack("", Some("s")), Pair("new", "r2"))
            && Bearer(fs, "") == Success("old")
  {
    assert TrimLeft("old") == "old" && TrimRight("old") == "old";
    assert TrimLeft("cc") == "cc" && TrimRight("cc") == "cc";
  }

  // ---------------------------------------------------------------------------
  // Client.Do
  // ---------------------------------------------------------------------------

  datatype Request = Request(bearer: string, body: string)

  datatype Reply =
    | NoToken                 // no access token to attach
    | Unreachable             // the transport failed
    | RefreshFailed
    | StillUnauthorized
    | Status(code: int)

  /**
   Do. `serve(i, r)` is the portal's status for the i-th request, None when the
   transport fails. A 401 with a refresher is retried once; the retry carries the
   token as it is on disk then and no body.
   */
  method Do(r: Refresher, canRefresh: bool, body: string, serve: (nat, Request) -> Option<int>, reply: Option<Pair>)
    returns (result: Reply, sent: seq<Request>)
    modifies r.dir
    ensures |sent| <= 2
    ensures Bearer(old(r.dir.files), r.sessionID).Success? <==> sent != []
    ensures sent != [] ==> sent[0] == Request(Bearer(old(r.dir.files), r.sessionID).value, body)
    ensures |sent| == 2 ==>
              && canRefresh && serve(0, sent[0]) == Some(401)
              && Bearer(r.dir.files, r.sessionID) == Success(sent[1].bearer) && sent[1].body == ""
              && (r.sessionID != "" ==> reply.Some? && sent[1].bearer == TrimSpace(reply.value.access))
    ensures |sent| <= 1 && (!canRefresh || sent == [] || serve(0, sent[0]) != Some(401)) ==> r.dir.files == old(r.dir.files)
    ensures result.Status? ==>
              sent != [] && serve(|sent| - 1, sent[|sent| - 1]) == Some(result.code)
    ensures result.Status? && canRefresh ==> result.code != 401
    ensures result.StillUnauthorized? <==> |sent| == 2 && serve(1, sent[1]) == Some(401)
    ensures result.Unreachable? <==> sent != [] && serve(|sent| - 1, sent[|sent| - 1]).None?
    ensures result.RefreshFailed? ==> canRefresh && |sent| == 1 && serve(0, sent[0]) == Some(401)
  {
    sent := [];
    var tok := Bearer(r.dir.files, r.sessionID);
    if tok.Failure? {
      return NoToken, sent;
    }
    var req := Request(tok.value, body);
    sent := [req];
    var code := serve(0, req);
    if code.None? {
      return Unreachable, sent;
    }
    if code.value != 401 || !canRefresh {
      return Status(code.value), sent;
    }
    var ok, bound := r.Refresh(reply);
    if !ok {
      return RefreshFailed, sent;
    }
    var tok2 := Bearer(r.dir.files, r.sessionID);
    if tok2.Failure? {
      return NoToken, sent;
    }
    var retry := Request(tok2.value, "");
    sent := [req, retry];
    var code2 := serve(1, retry);
    result := if code2.None? then Unreachable else if code2.value == 401 then StillUnauthorized else Status(code2.value);
  }
}
