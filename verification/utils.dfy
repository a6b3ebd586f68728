/**
 * The pure helpers of src/utils.py: subnet syntax, placeholder substitution,
 * the shape of the generated key, the sudo rule of `run_command`, and the
 * answer classification of the interactive prompts.
 */
module Utils {
  import opened Wrappers
  import opened Text

  /** `lo <= int(s) <= hi`, false where `int(s)` raises. */
  predicate IntInRange(s: string, lo: int, hi: int) {
    var v := ParseInt(s);
    v.Some? && lo <= v.value <= hi
  }

  /** Four "."-separated integers, each in 0..255. */
  predicate IsDottedQuad(s: string) {
    var parts := Split(s, '.');
    |parts| == 4 && forall i | 0 <= i < 4 :: IntInRange(parts[i], 0, 255)
  }

  /**
   * `validate_subnet_format`: prefix notation as in section 3.1 of RFC 4632,
   * checked for syntax only (host bits are not inspected).
   */
  predicate ValidSubnetFormat(subnet: string) {
    if |subnet| == 0 || '/' !in subnet then false
    else
      var halves := Split(subnet, '/');
      |halves| == 2 && IsDottedQuad(halves[0]) && IntInRange(halves[1], 0, 32)
  }

  /** The textual form `a.b.c.d/p` of four octets and a prefix length. */
  function Cidr(a: nat, b: nat, c: nat, d: nat, p: nat): string {
    Join([Join([NatToString(a), NatToString(b), NatToString(c), NatToString(d)], "."), NatToString(p)], "/")
  }

  /** A character in no piece and not in the separator is not in the join. */
  lemma {:induction false} JoinLacks(parts: seq<string>, sep: string, c: char)
    requires c !in sep
    requires forall i | 0 <= i < |parts| :: c !in parts[i]
    ensures c !in Join(parts, sep)
  {
    if |parts| > 1 {
      JoinLacks(parts[1..], sep, c);
    }
  }

  /** The decimal form of `n` holds no separator and is an octet exactly when `n <= 255`. */
  lemma OctetString(n: nat)
    ensures '.' !in NatToString(n) && '/' !in NatToString(n)
    ensures IntInRange(NatToString(n), 0, 255) <==> n <= 255
  {
    NatToStringLacks(n, '.');
    NatToStringLacks(n, '/');
    ParseNatToString(n);
  }

  /** Four pieces without dots, joined by dots, form a dotted quad exactly when each is an octet. */
  lemma DottedQuadJoin(sa: string, sb: string, sc: string, sd: string)
    requires '.' !in sa && '.' !in sb && '.' !in sc && '.' !in sd
    ensures IsDottedQuad(Join([sa, sb, sc, sd], "."))
        <==> IntInRange(sa, 0, 255) && IntInRange(sb, 0, 255) && IntInRange(sc, 0, 255) && IntInRange(sd, 0, 255)
  {
    var parts := [sa, sb, sc, sd];
    assert forall i | 0 <= i < 4 :: '.' !in parts[i];
    SplitJoin(parts, '.');
    assert Split(Join(parts, "."), '.') == parts;
    assert parts[0] == sa && parts[1] == sb && parts[2] == sc && parts[3] == sd;
  }

  /** No slash enters a dotted quad whose pieces have none. */
  lemma QuadLacksSlash(sa: string, sb: string, sc: string, sd: string)
    requires '/' !in sa && '/' !in sb && '/' !in sc && '/' !in sd
    ensures '/' !in Join([sa, sb, sc, sd], ".")
  {
    var parts := [sa, sb, sc, sd];
    assert forall i | 0 <= i < 4 :: '/' !in parts[i];
    JoinLacks(parts, ".", '/');
  }

  /** The dotted quad `a.b.c.d` is accepted exactly when every octet is at most 255. */
  lemma DottedQuadOf(a: nat, b: nat, c: nat, d: nat)
    ensures '/' !in Join([NatToString(a), NatToString(b), NatToString(c), NatToString(d)], ".")
    ensures IsDottedQuad(Join([NatToString(a), NatToString(b), NatToString(c), NatToString(d)], "."))
        <==> a <= 255 && b <= 255 && c <= 255 && d <= 255
  {
    NatQuadLacksSlash(a, b, c, d);
    NatQuadAccepted(a, b, c, d);
  }

  lemma NatQuadLacksSlash(a: nat, b: nat, c: nat, d: nat)
    ensures '/' !in Join([NatToString(a), NatToString(b), NatToString(c), NatToString(d)], ".")
  {
    NatToStringLacks(a, '/'); NatToStringLacks(b, '/'); NatToStringLacks(c, '/'); NatToStringLacks(d, '/');
    QuadLacksSlash(NatToString(a), NatToString(b), NatToString(c), NatToString(d));
  }

  lemma NatQuadAccepted(a: nat, b: nat, c: nat, d: nat)
    ensures IsDottedQuad(Join([NatToString(a), NatToString(b), NatToString(c), NatToString(d)], "."))
        <==> a <= 255 && b <= 255 && c <= 255 && d <= 255
  {
    OctetString(a); OctetString(b); OctetString(c); OctetString(d);
    DottedQuadJoin(NatToString(a), NatToString(b), NatToString(c), NatToString(d));
  }

  /** A quad and a prefix without slashes, joined by one, form a valid subnet exactly when both halves do. */
  lemma SubnetJoin(quad: string, prefix: string)
    requires '/' !in quad && '/' !in prefix
    ensures ValidSubnetFormat(Join([quad, prefix], "/")) <==> IsDottedQuad(quad) && IntInRange(prefix, 0, 32)
  {
    SplitJoin([quad, prefix], '/');
    var s := Join([quad, prefix], "/");
    assert s == quad + "/" + prefix;
    assert s[|quad|] == '/';
  }

  /**
   * Every `a.b.c.d/p` is accepted exactly when the octets are at most 255 and the
   * prefix at most 32.
   */
  lemma CidrValid(a: nat, b: nat, c: nat, d: nat, p: nat)
    ensures ValidSubnetFormat(Cidr(a, b, c, d, p)) <==> a <= 255 && b <= 255 && c <= 255 && d <= 255 && p <= 32
  {
    var quad := Join([NatToString(a), NatToString(b), NatToString(c), NatToString(d)], ".");
    var ps := NatToString(p);
    DottedQuadOf(a, b, c, d);
    NatToStringLacks(p, '/');
    ParseNatToString(p);
    SubnetJoin(quad, ps);
  }

  lemma NatStrings()
    ensures NatToString(0) == "0" && NatToString(1) == "1" && NatToString(16) == "16"
    ensures NatToString(17) == "17" && NatToString(24) == "24" && NatToString(33) == "33"
    ensures NatToString(168) == "168" && NatToString(172) == "172"
    ensures NatToString(192) == "192" && NatToString(256) == "256"
  {
    assert NatToString(1) == "1";
    assert NatToString(16) == NatToString(1) + "6";
    assert NatToString(17) == NatToString(1) + "7";
    assert NatToString(2) == "2";
    assert NatToString(24) == NatToString(2) + "4";
    assert NatToString(3) == "3";
    assert NatToString(33) == NatToString(3) + "3";
    assert NatToString(168) == NatToString(16) + "8";
    assert NatToString(172) == NatToString(17) + "2";
    assert NatToString(19) == NatToString(1) + "9";
    assert NatToString(192) == NatToString(19) + "2";
    assert NatToString(25) == NatToString(2) + "5";
    assert NatToString(256) == NatToString(25) + "6";
  }

  /** A home network in prefix notation is accepted. */
  lemma SubnetExampleLan()
    ensures ValidSubnetFormat("192.168.1.0/24")
  {
    NatStrings();
    assert "192.168.1.0/24" == Cidr(192, 168, 1, 0, 24);
    CidrValid(192, 168, 1, 0, 24);
  }

  /** The all-zero network with prefix 0 is accepted. */
  lemma SubnetExampleDefaultRoute()
    ensures ValidSubnetFormat("0.0.0.0/0")
  {
    NatStrings();
    assert "0.0.0.0/0" == Cidr(0, 0, 0, 0, 0);
    CidrValid(0, 0, 0, 0, 0);
  }

  /** A prefix beyond 32 is rejected. */
  lemma SubnetExampleWidePrefix()
    ensures !ValidSubnetFormat("192.168.1.0/33")
  {
    NatStrings();
    assert "192.168.1.0/33" == Cidr(192, 168, 1, 0, 33);
    CidrValid(192, 168, 1, 0, 33);
  }

  /** An octet beyond 255 is rejected. */
  lemma SubnetExampleBadOctet()
    ensures !ValidSubnetFormat("256.1.1.0/24")
  {
    NatStrings();
    assert "256.1.1.0/24" == Cidr(256, 1, 1, 0, 24);
    CidrValid(256, 1, 1, 0, 24);
  }

  /** Text without a slash is rejected before anything is parsed. */
  lemma SubnetExampleNoSlash()
    ensures !ValidSubnetFormat("")
    ensures !ValidSubnetFormat("invalid")
    ensures !ValidSubnetFormat("192.168.1.0")
  {
  }

  /** A slash with nothing after it is rejected: `int("")` raises. */
  lemma SubnetExampleEmptyPrefix()
    ensures !ValidSubnetFormat("192.168.1.0/")
  {
    SubnetJoin("192.168.1.0", "");
    assert "192.168.1.0/" == Join(["192.168.1.0", ""], "/");
  }

  /** A negative prefix parses but is out of range. */
  lemma SubnetExampleNegativePrefix()
    ensures !ValidSubnetFormat("192.168.1.0/-1")
  {
    SubnetJoin("192.168.1.0", "-1");
    assert "192.168.1.0/-1" == Join(["192.168.1.0", "-1"], "/");
    MinusOne();
  }

  lemma MinusOne()
    ensures !IntInRange("-1", 0, 32)
  {
    assert "-1"[1..] == "1";
    assert AllDigits("1");
    assert DigitsValue("1") == DigitsValue("") * 10 + 1;
    assert ParseInt("-1") == Some(-1);
  }

  /** Three octets are not a dotted quad. */
  lemma SubnetExampleThreeOctets()
    ensures !ValidSubnetFormat("192.168.1/24")
  {
    ThreeOctets();
    SubnetJoin("192.168.1", "24");
    ThreeOctetsJoined();
  }

  lemma ThreeOctetsJoined()
    ensures "192.168.1/24" == Join(["192.168.1", "24"], "/")
  {
    assert Join(["192.168.1", "24"], "/") == "192.168.1" + "/" + "24";
  }

  lemma ThreeOctets()
    ensures !IsDottedQuad("192.168.1")
  {
    var three := ["192", "168", "1"];
    SplitJoin(three, '.');
    assert Join(three, ".") == "192.168.1";
  }

  /** The literal `{key}` that `replace_placeholders` looks for. */
  function Placeholder(key: string): (r: string)
    ensures |r| >= 2
  {
    "{" + key + "}"
  }

  /**
   * `replace_placeholders`: key by key, in dictionary order, every `{key}` is
   * replaced by its value, so a value may introduce placeholders of later keys.
   */
  function ReplacePlaceholders(text: string, replacements: seq<(string, string)>): string
    decreases |replacements|
  {
    if |replacements| == 0 then text
    else ReplacePlaceholders(ReplaceAll(text, Placeholder(replacements[0].0), replacements[0].1), replacements[1..])
  }

  /** With one key, every occurrence of `{key}` is replaced, and nothing else changes. */
  lemma {:induction false} ReplaceOneKey(text: string, key: string, value: string)
    ensures ReplacePlaceholders(text, [(key, value)]) == Join(SplitOn(text, Placeholder(key)), value)
    ensures Join(SplitOn(text, Placeholder(key)), Placeholder(key)) == text
  {
    var r := ReplaceAll(text, Placeholder(key), value);
    assert ReplacePlaceholders(text, [(key, value)]) == ReplacePlaceholders(r, []);
    ReplaceIsSplitJoin(text, Placeholder(key), value);
    JoinSplit(text, Placeholder(key));
  }

  /** Replacements apply in sequence: the second dictionary acts on the result of the first. */
  lemma {:induction false} ReplaceAppend(text: string, first: seq<(string, string)>, second: seq<(string, string)>)
    ensures ReplacePlaceholders(text, first + second) == ReplacePlaceholders(ReplacePlaceholders(text, first), second)
    decreases |first|
  {
    if |first| > 0 {
      assert (first + second)[0] == first[0];
      assert (first + second)[1..] == first[1..] + second;
      ReplaceAppend(ReplaceAll(text, Placeholder(first[0].0), first[0].1), first[1..], second);
    } else {
      assert first + second == second;
    }
  }

  /** Text holding none of the keys' placeholders comes back unchanged. */
  lemma {:induction false} ReplaceNoPlaceholders(text: string, replacements: seq<(string, string)>)
    requires forall i | 0 <= i < |replacements| :: !Contains(text, Placeholder(replacements[i].0))
    ensures ReplacePlaceholders(text, replacements) == text
    decreases |replacements|
  {
    if |replacements| > 0 {
      ReplaceAbsent(text, Placeholder(replacements[0].0), replacements[0].1);
      ReplaceNoPlaceholders(text, replacements[1..]);
    }
  }

  /** A key whose placeholder does not occur is harmless, wherever it is added. */
  lemma ReplaceExtraKey(text: string, replacements: seq<(string, string)>, key: string, value: string)
    requires !Contains(ReplacePlaceholders(text, replacements), Placeholder(key))
    ensures ReplacePlaceholders(text, replacements + [(key, value)]) == ReplacePlaceholders(text, replacements)
  {
    ReplaceAppend(text, replacements, [(key, value)]);
    ReplaceNoPlaceholders(ReplacePlaceholders(text, replacements), [(key, value)]);
  }

  /** Empty text stays empty whatever the replacements. */
  lemma {:induction false} ReplaceEmpty(replacements: seq<(string, string)>)
    ensures ReplacePlaceholders("", replacements) == ""
    decreases |replacements|
  {
    if |replacements| > 0 {
      ReplaceEmpty(replacements[1..]);
    }
  }

  /** A value holding a later key's placeholder is substituted again by that later key. */
  lemma ReplaceChains()
    ensures ReplacePlaceholders("{a}", [("a", "{b}"), ("b", "x")]) == "x"
    ensures ReplacePlaceholders("{a}", [("b", "x"), ("a", "{b}")]) == "{b}"
  {
    assert ReplaceAll("{a}", "{a}", "{b}") == "{b}" + ReplaceAll("", "{a}", "{b}");
    assert ReplaceAll("{b}", "{b}", "x") == "x" + ReplaceAll("", "{b}", "x");
    assert "{a}"[..3] != "{b}";
    assert ReplaceAll("{a}", "{b}", "x") == "{" + ReplaceAll("a}", "{b}", "x");
    assert ReplaceAll("{a}", "{b}", "x") == "{a}";
    var reps := [("b", "x"), ("a", "{b}")];
    assert reps[1..] == [("a", "{b}")];
    assert ReplacePlaceholders("{a}", reps) == ReplacePlaceholders("{a}", reps[1..]);
    assert ReplacePlaceholders("{a}", reps[1..]) == ReplacePlaceholders("{b}", []);
  }

  // ---------------------------------------------------------------------------
  // Encryption keys

  /** `string.ascii_letters + string.digits`, position by position. */
  function AlphabetChar(i: nat): (c: char)
    requires i < 62
    ensures IsAlnum(c)
  {
    if i < 26 then ('a' as int + i) as char
    else if i < 52 then ('A' as int + (i - 26)) as char
    else ('0' as int + (i - 52)) as char
  }

  predicate IsAlnum(c: char) {
    IsLower(c) || IsUpper(c) || IsDigit(c)
  }

  /**
   * A key of `length` characters, each `secrets.choice` of the alphabet. The random
   * source is the parameter `draw`: the position drawn for each character.
   */
  function RandomKey(length: nat, draw: nat -> nat): (key: string)
    ensures |key| == length
    ensures forall i | 0 <= i < |key| :: IsAlnum(key[i])
    ensures forall i | 0 <= i < |key| :: key[i] == AlphabetChar(draw(i) % 62)
  {
    var key := seq(length, i requires 0 <= i < length => AlphabetChar(draw(i) % 62));
    assert forall i | 0 <= i < length :: IsAlnum(key[i]) by {
      forall i | 0 <= i < length ensures IsAlnum(key[i]) {
        assert key[i] == AlphabetChar(draw(i) % 62);
      }
    }
    key
  }

  /** `generate_encryption_key`: 32 characters from [A-Za-z0-9]. */
  function GenerateEncryptionKey(draw: nat -> nat): (key: string)
    ensures |key| == 32
    ensures forall i | 0 <= i < |key| :: IsAlnum(key[i])
  {
    RandomKey(32, draw)
  }

  function AlphabetIndex(c: char): (i: nat)
    requires IsAlnum(c)
    ensures i < 62 && AlphabetChar(i) == c
  {
    if IsLower(c) then c as int - 'a' as int
    else if IsUpper(c) then c as int - 'A' as int + 26
    else c as int - '0' as int + 52
  }

  /** The key shape is all the model promises: every alphanumeric string is a possible key. */
  lemma EveryAlnumKeyPossible(key: string)
    requires forall i | 0 <= i < |key| :: IsAlnum(key[i])
    ensures exists draw: nat -> nat :: RandomKey(|key|, draw) == key
  {
    var draw := (i: nat) => if i < |key| then AlphabetIndex(key[i]) else 0;
    var r := RandomKey(|key|, draw);
    forall i | 0 <= i < |key| ensures r[i] == key[i] {
      assert draw(i) % 62 == AlphabetIndex(key[i]);
    }
    assert r == key;
  }

  // ---------------------------------------------------------------------------
  // Commands and prompts

  /** The command `run_command` executes: "sudo" is prepended only when asked for and not already root. */
  function SudoCommand(command: seq<string>, sudo: bool, euid: int): (r: seq<string>)
    ensures |r| == |command| + (if sudo && euid != 0 then 1 else 0)
    ensures r[|r| - |command|..] == command
    ensures |r| > |command| ==> r[0] == "sudo"
  {
    if sudo && euid != 0 then ["sudo"] + command else command
  }

  /** `prompt(question, default)`: an empty answer means the default. */
  function PromptAnswer(raw: string, default: string): string {
    if raw == "" then default else raw
  }

  const YesAnswers: seq<string> := ["y", "yes", "true", "1"]
  const NoAnswers: seq<string> := ["n", "no", "false", "0"]

  /** One answer to `prompt_yes_no`, lower-cased and stripped. */
  function YesNoDecision(raw: string, default: bool): Decision<bool> {
    var answer := Strip(Lower(raw));
    if answer == "" then Chosen(default)
    else if answer in YesAnswers then Chosen(true)
    else if answer in NoAnswers then Chosen(false)
    else Reprompt
  }

  /** The yes/no rule in both directions. */
  lemma YesNoClassification(raw: string, default: bool)
    ensures YesNoDecision(raw, default) == Chosen(true)
        <==> Strip(Lower(raw)) in YesAnswers || (Strip(Lower(raw)) == "" && default)
    ensures YesNoDecision(raw, default) == Chosen(false)
        <==> Strip(Lower(raw)) in NoAnswers || (Strip(Lower(raw)) == "" && !default)
    ensures YesNoDecision(raw, default) == Reprompt
        <==> Strip(Lower(raw)) !in YesAnswers + NoAnswers + [""]
  {
  }

  /**
   * An interactive loop: answers are read in order until one decides. The result
   * is the decision and the number of answers read, or `None` if they run out.
   */
  function Ask<T>(answers: seq<string>, decide: string -> Decision<T>): (r: Option<(T, nat)>)
    ensures r.Some? ==> 1 <= r.value.1 <= |answers|
    ensures r.Some? ==> decide(answers[r.value.1 - 1]) == Chosen(r.value.0)
    ensures forall i | 0 <= i < |answers| && (r.None? || i < r.value.1 - 1) :: decide(answers[i]).Reprompt?
  {
    if |answers| == 0 then None
    else match decide(answers[0])
      case Chosen(v) => Some((v, 1))
      case Reprompt =>
        var rest := Ask(answers[1..], decide);
        if rest.None? then None else Some((rest.value.0, rest.value.1 + 1))
  }

  /** `prompt_yes_no` over a stream of answers. */
  function PromptYesNo(answers: seq<string>, default: bool): Option<(bool, nat)> {
    Ask(answers, (raw: string) => YesNoDecision(raw, default))
  }

  lemma YesNoExamples()
    ensures YesNoDecision(" YES ", false) == Chosen(true)
    ensures YesNoDecision("No", true) == Chosen(false)
    ensures YesNoDecision("", true) == Chosen(true)
    ensures YesNoDecision("maybe", true) == Reprompt
  {
    assert Lower(" YES ") == " yes ";
    assert Strip(" yes ") == "yes";
    assert Lower("No") == "no";
    assert Strip("no") == "no";
    assert Lower("maybe") == "maybe";
    assert Strip("maybe") == "maybe";
  }
}
