/**
 * The decisions of `src/system_validators.py` that do not depend on a live
 * system: the IP address check of `ContainerTester` and the reading of a
 * container's log while waiting for it to come up. Each poll of the log (its exit
 * status and output, or an exception) is an input; the clock is replaced by the
 * sequence of polls made before the timeout.
 */
module SystemValidators {
  import opened Wrappers
  import opened Text
  import opened Utils

  // ---------------------------------------------------------------------------
  // IP addresses

  /**
   * `ContainerTester._is_valid_ip`: split on ".", four parts, each converted with
   * `int` and checked against 0..255, giving up at the first failure. A part `int`
   * rejects ends the check with `False`, as the `except ValueError` does.
   */
  method IsValidIp(ip: string) returns (ok: bool)
    ensures ok <==> IsDottedQuad(ip)
  {
    var parts := Split(ip, '.');
    if |parts| != 4 {
      return false;
    }
    var i := 0;
    while i < 4
      invariant 0 <= i <= 4
      invariant forall j | 0 <= j < i :: IntInRange(parts[j], 0, 255)
    {
      var num := ParseInt(parts[i]);
      if num.None? {
        return false;
      }
      if !(0 <= num.value <= 255) {
        return false;
      }
      i := i + 1;
    }
    return true;
  }

  lemma IpExampleLan()
    ensures IsDottedQuad("192.168.1.1")
  {
    NatStrings();
    assert "192.168.1.1" == Join([NatToString(192), NatToString(168), NatToString(1), NatToString(1)], ".");
    DottedQuadOf(192, 168, 1, 1);
  }

  /** An address from the 10.0.0.0/8 private range is accepted. */
  lemma IpExampleTen()
    ensures IsDottedQuad("10.0.0.1")
  {
    NatStrings();
    assert NatToString(10) == NatToString(1) + "0";
    assert "10.0.0.1" == Join([NatToString(10), NatToString(0), NatToString(0), NatToString(1)], ".");
    DottedQuadOf(10, 0, 0, 1);
  }

  /** An address from the 172.16.0.0/12 private range is accepted. */
  lemma IpExampleDocker()
    ensures IsDottedQuad("172.16.0.1")
  {
    NatStrings();
    assert "172.16.0.1" == Join([NatToString(172), NatToString(16), NatToString(0), NatToString(1)], ".");
    DottedQuadOf(172, 16, 0, 1);
  }

  lemma IpExampleBadOctet()
    ensures !IsDottedQuad("256.1.1.1")
  {
    NatStrings();
    assert "256.1.1.1" == Join([NatToString(256), NatToString(1), NatToString(1), NatToString(1)], ".");
    DottedQuadOf(256, 1, 1, 1);
  }

  /** Words and the empty string are rejected. */
  lemma IpExampleWords()
    ensures !IsDottedQuad("not.an.ip")
    ensures !IsDottedQuad("")
  {
    var words := ["not", "an", "ip"];
    SplitJoin(words, '.');
    assert Join(words, ".") == "not.an.ip";
  }

  // ---------------------------------------------------------------------------
  // Waiting for a container

  const ReadyKeywords: seq<string> := ["VPN is up", "Tunnel is up", "Connected", "ready", "SUCCESS"]

  const ErrorKeywords: seq<string> := ["ERROR", "FATAL", "authentication failed", "connection failed"]

  /** One poll of `docker logs --tail 50`: an exception, or the exit status and output. */
  datatype Poll = Raised | Output(exitCode: int, stdout: string)

  /** What one poll decides: ready, failed, or keep waiting. */
  datatype Readiness = Ready | Failed | Waiting

  /** Some keyword, lower-cased, occurs in the lower-cased log. */
  predicate Mentions(logs: string, keywords: seq<string>) {
    exists i | 0 <= i < |keywords| :: Contains(logs, Lower(keywords[i]))
  }

  /** The verdict of one poll: error keywords are looked for first, then ready keywords. */
  function PollVerdict(p: Poll): (r: Readiness)
    ensures r == Failed <==> p.Output? && p.exitCode == 0 && Mentions(Lower(p.stdout), ErrorKeywords)
    ensures r == Ready <==> p.Output? && p.exitCode == 0 && !Mentions(Lower(p.stdout), ErrorKeywords)
                               && Mentions(Lower(p.stdout), ReadyKeywords)
    ensures r == Waiting <==> p.Raised? || p.exitCode != 0
                               || (!Mentions(Lower(p.stdout), ErrorKeywords) && !Mentions(Lower(p.stdout), ReadyKeywords))
  {
    if p.Raised? || p.exitCode != 0 then Waiting
    else if Mentions(Lower(p.stdout), ErrorKeywords) then Failed
    else if Mentions(Lower(p.stdout), ReadyKeywords) then Ready
    else Waiting
  }

  /** `_wait_for_container_ready` over the polls made before the timeout: the first decisive poll wins. */
  function WaitForReady(polls: seq<Poll>): bool {
    if |polls| == 0 then false
    else match PollVerdict(polls[0])
      case Ready => true
      case Failed => false
      case Waiting => WaitForReady(polls[1..])
  }

  /** Poll `k` is ready and every poll before it kept waiting. */
  predicate FirstReady(polls: seq<Poll>, k: int) {
    0 <= k < |polls| && PollVerdict(polls[k]) == Ready
      && forall j | 0 <= j < k :: PollVerdict(polls[j]) == Waiting
  }

  /** The wait succeeds exactly when some poll is ready and every poll before it kept waiting. */
  lemma {:induction false} WaitForReadyFirst(polls: seq<Poll>)
    ensures WaitForReady(polls) <==> exists k :: FirstReady(polls, k)
  {
    if |polls| > 0 {
      var rest := polls[1..];
      WaitForReadyFirst(rest);
      if PollVerdict(polls[0]) == Waiting {
        if WaitForReady(polls) {
          var k :| FirstReady(rest, k);
          forall j | 0 <= j < k + 1 ensures PollVerdict(polls[j]) == Waiting {
            if j > 0 {
              assert polls[j] == rest[j - 1];
            }
          }
          assert FirstReady(polls, k + 1);
        }
        if exists k :: FirstReady(polls, k) {
          var k :| FirstReady(polls, k);
          forall j | 0 <= j < k - 1 ensures PollVerdict(rest[j]) == Waiting {
            assert rest[j] == polls[j + 1];
          }
          assert FirstReady(rest, k - 1);
        }
      } else if PollVerdict(polls[0]) == Ready {
        assert FirstReady(polls, 0);
      } else {
        forall k | 0 <= k < |polls| ensures !FirstReady(polls, k) {
          assert PollVerdict(polls[0]) != Waiting;
        }
      }
    }
  }

  /** A log that mentions an error fails the wait even when it also says it is ready. */
  lemma ErrorWins(stdout: string, rest: seq<Poll>)
    requires Mentions(Lower(stdout), ErrorKeywords)
    ensures !WaitForReady([Output(0, stdout)] + rest)
  { }

  /** A successful poll whose log starts with "error", in any case, fails. */
  lemma ErrorFirstFails(stdout: string)
    requires StartsWith(Lower(stdout), "error")
    ensures PollVerdict(Output(0, stdout)) == Failed
  {
    assert Lower(ErrorKeywords[0]) == "error";
  }

  /** A successful poll whose log starts with "vpn is up", in any case, and mentions no error keyword is ready. */
  lemma TunnelUpReady(stdout: string)
    requires StartsWith(Lower(stdout), "vpn is up")
    requires !Mentions(Lower(stdout), ErrorKeywords)
    ensures PollVerdict(Output(0, stdout)) == Ready
  {
    assert Lower(ReadyKeywords[0]) == "vpn is up";
  }

  /** A log with none of the letters e, f, a and c (one from each error keyword) mentions no error keyword. */
  lemma NoErrorLetters(logs: string)
    requires 'e' !in logs && 'f' !in logs && 'a' !in logs && 'c' !in logs
    ensures !Mentions(logs, ErrorKeywords)
  {
    forall i | 0 <= i < |ErrorKeywords| ensures !Contains(logs, Lower(ErrorKeywords[i])) {
      var kw := Lower(ErrorKeywords[i]);
      var c := if i == 0 then 'e' else if i == 1 then 'f' else if i == 2 then 'a' else 'c';
      assert kw[0] == c;
      MissingCharNotContained(logs, kw, c);
    }
  }

  /** The log of a failed container, and one of a container whose tunnel is up. */
  lemma PollExamples()
    ensures PollVerdict(Output(0, "ERROR: Connection failed")) == Failed
    ensures PollVerdict(Output(0, "VPN is up")) == Ready
  {
    ConnectionFailedExample();
    TunnelUpExample();
  }

  lemma ConnectionFailedExample()
    ensures PollVerdict(Output(0, "ERROR: Connection failed")) == Failed
  {
    assert Lower("ERROR: Connection failed")[..5] == "error";
    ErrorFirstFails("ERROR: Connection failed");
  }

  lemma TunnelUpExample()
    ensures PollVerdict(Output(0, "VPN is up")) == Ready
  {
    var logs := Lower("VPN is up");
    assert logs == "vpn is up";
    assert StartsWith(logs, "vpn is up");
    NoErrorLetters(logs);
    TunnelUpReady("VPN is up");
  }

  /** Polls that fail or raise never decide anything; the wait then times out with `False`. */
  lemma {:induction false} FailedPollsTimeOut(polls: seq<Poll>)
    requires forall k | 0 <= k < |polls| :: polls[k].Raised? || polls[k].exitCode != 0
    ensures !WaitForReady(polls)
  {
    if |polls| > 0 {
      FailedPollsTimeOut(polls[1..]);
    }
  }
}
