/** The broadcast flag of a DHCP request, and the UDP checksum that has to follow it. */
module DhcpChecksum {

  import opened Basics

  /** The first and second byte in memory of a loaded word. */
  function FirstByte(little: bool, w: Word): nat {
    if little then w % 256 else w / 256
  }

  function SecondByte(little: bool, w: Word): nat {
    if little then w / 256 else w % 256
  }

  // ---------------------------------------------------------------------------
  // One's-complement sums
  // ---------------------------------------------------------------------------

  function Sum(words: seq<Word>): nat {
    if words == [] then 0 else words[0] + Sum(words[1..])
  }

  function FoldAll(sum: nat): nat
    decreases sum
  {
    if sum < 0x1_0000 then sum else FoldAll(sum % 0x1_0000 + sum / 0x1_0000)
  }

  lemma {:induction false} FoldKeepsModulo(sum: nat)
    ensures FoldAll(sum) < 0x1_0000
    ensures FoldAll(sum) % 0xFFFF == sum % 0xFFFF
    ensures FoldAll(sum) == 0 <==> sum == 0
    decreases sum
  {
    if sum >= 0x1_0000 {
      var next := sum % 0x1_0000 + sum / 0x1_0000;
      FoldKeepsModulo(next);
      SameModulo(sum, next, sum / 0x1_0000);
    }
  }

  lemma SameModulo(a: int, b: int, k: int)
    requires a == b + k * 0xFFFF
    ensures a % 0xFFFF == b % 0xFFFF
  {
  }

  /** The receiver's test: the words and the pseudo header fold to all ones. */
  predicate Verifies(pseudo: nat, words: seq<Word>) {
    FoldAll(pseudo + Sum(words)) == 0xFFFF
  }

  lemma VerifiesMeans(pseudo: nat, words: seq<Word>)
    ensures Verifies(pseudo, words) <==> pseudo + Sum(words) > 0 && (pseudo + Sum(words)) % 0xFFFF == 0
  {
    FoldKeepsModulo(pseudo + Sum(words));
  }

  lemma {:induction false} SumPut(words: seq<Word>, i: nat, w: Word)
    requires i < |words|
    ensures Sum(words[i := w]) == Sum(words) - words[i] + w
  {
    if i == 0 {
      assert words[i := w][1..] == words[1..];
    } else {
      assert words[i := w][1..] == words[1..][i - 1 := w];
      SumPut(words[1..], i - 1, w);
    }
  }

  // ---------------------------------------------------------------------------
  // Setting the flag
  // ---------------------------------------------------------------------------

  const BROADCAST_FLAG: Word := 0x8000

  /** Whether a word has the flag's bit, on a host of either byte order. */
  predicate HasFlag(w: Word, flag: Word) {
    if flag == BROADCAST_FLAG then w >= 0x8000 else w / 0x80 % 2 == 1
  }

  /** Where the checksum and the DHCP flags are, from the start of the UDP header. */
  const CHECK := 3
  const FLAGS := 9

  function WithFlag(w: Word, flag: Word): (r: Word)
    requires flag in {0x8000, 0x80} && !HasFlag(w, flag)
    ensures r == w + flag
  {
    w + flag
  }

  /** The complement of the old checksum's complement and the flags. */
  function NewCheck(check: Word, flags: Word): (r: Word)
    ensures r == 0xFFFF - FoldAll(0xFFFF - check + flags)
  {
    FoldKeepsModulo(0xFFFF - check + flags);
    0xFFFF - FoldAll(0xFFFF - check + flags)
  }

  /** The datagram afterwards: the whole new flags word is added to the old checksum. */
  function SetBroadcast(words: seq<Word>, flag: Word): (r: seq<Word>)
    requires |words| > FLAGS && flag in {0x8000, 0x80}
    ensures |r| == |words|
  {
    if HasFlag(words[FLAGS], flag) then words
    else
      var flags := WithFlag(words[FLAGS], flag);
      words[FLAGS := flags][CHECK := NewCheck(words[CHECK], flags)]
  }

  /** Of a UDP datagram with a DHCP message the checksum, octets 6 and 7, and the flags, octets 18 and 19, change. */
  lemma SetBroadcastPlaces(words: seq<Word>, flag: Word)
    requires |words| > 9 && flag in {0x8000, 0x80}
    ensures var r := SetBroadcast(words, flag);
            && (HasFlag(words[9], flag) ==> r == words)
            && (!HasFlag(words[9], flag) ==> r[9] == words[9] + flag)
            && forall j :: 0 <= j < |words| && j != 3 && j != 9 ==> r[j] == words[j]
  {
  }

  lemma SumPutTwo(words: seq<Word>, flags: Word, check: Word)
    requires |words| > FLAGS
    ensures Sum(words[FLAGS := flags][CHECK := check])
         == Sum(words) + flags - words[FLAGS] + check - words[CHECK]
    ensures Sum(words[FLAGS := flags][CHECK := check]) >= flags
  {
    var mid := words[FLAGS := flags];
    SumPut(words, FLAGS, flags);
    SumPut(mid, CHECK, check);
    SumAtLeast(mid[CHECK := check], FLAGS);
  }

  /** Replacing both words by ones that fit together takes the old flags out of the sum. */
  lemma PutShifts(words: seq<Word>, flags: Word, check: Word, pseudo: nat)
    requires |words| > FLAGS && flags > 0
    requires (0xFFFF - check) % 0xFFFF == (0xFFFF - words[CHECK] + flags) % 0xFFFF
    ensures (pseudo + Sum(words[FLAGS := flags][CHECK := check])) % 0xFFFF
         == (pseudo + Sum(words) - words[FLAGS]) % 0xFFFF
  {
    SumPutTwo(words, flags, check);
    SameDifference(0xFFFF - words[CHECK] + flags, 0xFFFF - check,
                   pseudo + Sum(words[FLAGS := flags][CHECK := check]), pseudo + Sum(words) - words[FLAGS]);
  }

  lemma PutShiftsInto(words: seq<Word>, flags: Word, check: Word, pseudo: nat, r: seq<Word>)
    requires |words| > FLAGS && flags > 0 && r == words[FLAGS := flags][CHECK := check]
    requires (0xFFFF - check) % 0xFFFF == (0xFFFF - words[CHECK] + flags) % 0xFFFF
    ensures (pseudo + Sum(r)) % 0xFFFF == (pseudo + Sum(words) - words[FLAGS]) % 0xFFFF
  {
    PutShifts(words, flags, check, pseudo);
  }

  lemma NewCheckFits(check: Word, flags: Word)
    ensures (0xFFFF - NewCheck(check, flags)) % 0xFFFF == (0xFFFF - check + flags) % 0xFFFF
  {
    FoldKeepsModulo(0xFFFF - check + flags);
  }

  lemma SetBroadcastIsPositive(words: seq<Word>, flag: Word)
    requires |words| > FLAGS && flag in {0x8000, 0x80} && !HasFlag(words[FLAGS], flag)
    ensures Sum(SetBroadcast(words, flag)) > 0
  {
    var flags := WithFlag(words[FLAGS], flag);
    SumPutTwo(words, flags, NewCheck(words[CHECK], flags));
  }

  /** The sum afterwards is the old sum less the old flags. */
  lemma SetBroadcastShifts(words: seq<Word>, flag: Word, pseudo: nat)
    requires |words| > FLAGS && flag in {0x8000, 0x80} && !HasFlag(words[FLAGS], flag)
    ensures (pseudo + Sum(SetBroadcast(words, flag))) % 0xFFFF
         == (pseudo + Sum(words) - words[FLAGS]) % 0xFFFF
  {
    var flags := WithFlag(words[FLAGS], flag);
    NewCheckFits(words[CHECK], flags);
    PutShiftsInto(words, flags, NewCheck(words[CHECK], flags), pseudo, SetBroadcast(words, flag));
  }

  lemma SameDifference(a: int, b: int, c: int, d: int)
    requires a % 0xFFFF == b % 0xFFFF && c - d == a - b
    ensures c % 0xFFFF == d % 0xFFFF
  {
    SameModulo(c, d, a / 0xFFFF - b / 0xFFFF);
  }

  lemma {:induction false} SumAtLeast(words: seq<Word>, i: nat)
    requires i < |words|
    ensures Sum(words) >= words[i]
  {
    if i > 0 {
      SumAtLeast(words[1..], i - 1);
    }
  }

  /**
    A datagram that verifies still does afterwards, exactly when its flags were
    all zero (or the flag was already there): the code adds the whole new flags
    word, so any other old flag is counted twice.
   */
  lemma StillVerifiesExactly(words: seq<Word>, flag: Word, pseudo: nat)
    requires |words| > FLAGS && flag in {0x8000, 0x80} && Verifies(pseudo, words)
    ensures Verifies(pseudo, SetBroadcast(words, flag))
       <==> words[FLAGS] == 0 || HasFlag(words[FLAGS], flag)
  {
    if !HasFlag(words[FLAGS], flag) {
      VerifiesMeans(pseudo, words);
      VerifiesMeans(pseudo, SetBroadcast(words, flag));
      SetBroadcastIsPositive(words, flag);
      SetBroadcastShifts(words, flag, pseudo);
      assert words[FLAGS] != 0xFFFF;
      ShiftedZero(pseudo + Sum(words), words[FLAGS]);
    }
  }

  lemma ShiftedZero(s: int, f: int)
    requires s % 0xFFFF == 0 && 0 <= f < 0xFFFF
    ensures (s - f) % 0xFFFF == 0 <==> f == 0
  {
    SameModulo(s - f, -f, s / 0xFFFF);
  }

  /**
    A checksum of 0 means none was computed (RFC 768).  The code does not look:
    such a datagram gets a checksum, unless every flag bit is then set.
   */
  lemma UnusedChecksumBecomesUsed(words: seq<Word>, flag: Word)
    requires |words| > FLAGS && flag in {0x8000, 0x80} && !HasFlag(words[FLAGS], flag)
    requires words[CHECK] == 0
    ensures SetBroadcast(words, flag)[CHECK] == 0xFFFF - (words[FLAGS] + flag)
  {
    var flags := words[FLAGS] + flag;
    assert FoldAll(0xFFFF + flags) == FoldAll((0xFFFF + flags) % 0x1_0000 + (0xFFFF + flags) / 0x1_0000);
    assert (0xFFFF + flags) / 0x1_0000 == 1 && (0xFFFF + flags) % 0x1_0000 == flags - 1;
  }

  /** And that new checksum is wrong for a datagram of otherwise any content but one sum. */
  lemma UnusedChecksumIsWrong(words: seq<Word>, flag: Word, pseudo: nat)
    requires |words| > FLAGS && flag in {0x8000, 0x80} && !HasFlag(words[FLAGS], flag)
    requires words[CHECK] == 0
    ensures Verifies(pseudo, SetBroadcast(words, flag))
       <==> (pseudo + Sum(words) - words[FLAGS]) % 0xFFFF == 0
  {
    SetBroadcastIsPositive(words, flag);
    SetBroadcastShifts(words, flag, pseudo);
    VerifiesMeans(pseudo, SetBroadcast(words, flag));
  }

  /**
    The other way round, a checksum in use can come out as 0, which RFC 768 has sent
    as all ones: exactly when it equals the new flags word.
   */
  lemma UsedChecksumBecomesUnusedExactly(words: seq<Word>, flag: Word)
    requires |words| > FLAGS && flag in {0x8000, 0x80} && !HasFlag(words[FLAGS], flag)
    requires words[CHECK] != 0
    ensures SetBroadcast(words, flag)[CHECK] == 0 <==> words[CHECK] == words[FLAGS] + flag
  {
    var sum := 0xFFFF - words[CHECK] + (words[FLAGS] + flag);
    FoldKeepsModulo(sum);
    if sum > 0xFFFF {
      SameModulo(sum, sum - 0xFFFF, 1);
    }
  }

  // ---------------------------------------------------------------------------
  // In place
  // ---------------------------------------------------------------------------

  /** The fold loop. */
  method Fold(start: nat) returns (sum: Word)
    ensures sum == FoldAll(start) && sum % 0xFFFF == start % 0xFFFF
  {
    var s := start;
    while s / 0x1_0000 != 0
      invariant s >= 0 && FoldAll(s) == FoldAll(start)
      decreases s
    {
      s := s % 0x1_0000 + s / 0x1_0000;
    }
    FoldKeepsModulo(start);
    sum := s;
  }

  const ETH_TYPE := 6
  const IP_HEADER := 7
  const IP_PROTOCOL := 11
  const COOKIE := 4 + 118

  /** The UDP header's place: behind the IP header, whose length is in its first byte. */
  function UdpAt(little: bool, skb: seq<Word>): nat
    requires |skb| > IP_HEADER
  {
    IP_HEADER + FirstByte(little, skb[IP_HEADER]) % 16 * 2
  }

  predicate IsUdp(little: bool, skb: seq<Word>)
    requires |skb| > IP_PROTOCOL
  {
    skb[ETH_TYPE] == Htons(little, 0x0800) && SecondByte(little, skb[IP_PROTOCOL]) == 17
  }

  predicate IsDhcpRequest(little: bool, skb: seq<Word>)
    requires |skb| > IP_PROTOCOL
    requires IsUdp(little, skb) ==> UdpAt(little, skb) + COOKIE + 2 <= |skb|
  {
    && IsUdp(little, skb)
    && var u := UdpAt(little, skb);
       && skb[u] == Htons(little, 68) && skb[u + 1] == Htons(little, 67)
       && skb[u + COOKIE] == Htons(little, 0x6382) && skb[u + COOKIE + 1] == Htons(little, 0x5363)
  }

  /** Two bytes in memory, on a host of either byte order. */
  predicate BytesAre(little: bool, w: Word, first: nat, second: nat) {
    FirstByte(little, w) == first && SecondByte(little, w) == second
  }

  /**
    What a DHCP request is, byte by byte as it is on the wire: IPv4, UDP, from port 68 to
    port 67, with the magic cookie 99, 130, 83, 99 behind 236 octets of message.
   */
  lemma RequestOnTheWire(little: bool, skb: seq<Word>)
    requires |skb| > IP_PROTOCOL && (IsUdp(little, skb) ==> UdpAt(little, skb) + COOKIE + 2 <= |skb|)
    ensures IsDhcpRequest(little, skb) <==>
              && BytesAre(little, skb[6], 8, 0) && SecondByte(little, skb[11]) == 17
              && var u := 7 + FirstByte(little, skb[7]) % 16 * 2;
                 && u + 123 < |skb|
                 && BytesAre(little, skb[u], 0, 68) && BytesAre(little, skb[u + 1], 0, 67)
                 && BytesAre(little, skb[u + 122], 99, 130) && BytesAre(little, skb[u + 123], 83, 99)
  {
    forall w: Word, v: Word ensures w == Htons(little, v) <==> BytesAre(little, w, v / 256, v % 256) {
      WordBytes(little, w, v);
    }
  }

  lemma WordBytes(little: bool, w: Word, v: Word)
    ensures w == Htons(little, v) <==> BytesAre(little, w, v / 256, v % 256)
  {
  }

  /** The flag is the top bit of the flags' first byte on the wire. */
  lemma FlagOnTheWire(little: bool, w: Word)
    ensures HasFlag(w, Htons(little, BROADCAST_FLAG)) <==> FirstByte(little, w) >= 128
  {
    if little {
      assert w / 0x80 == 2 * (w / 256) + w % 256 / 0x80;
    }
  }

  /** Setting it changes that byte only. */
  lemma FlagSetOnTheWire(little: bool, w: Word)
    requires FirstByte(little, w) < 128
    ensures w + Htons(little, BROADCAST_FLAG) < 0x1_0000
    ensures BytesAre(little, w + Htons(little, BROADCAST_FLAG), FirstByte(little, w) + 128, SecondByte(little, w))
  {
    if little {
      BytesOfSum(w / 256, w % 256);
    }
  }

  lemma BytesOfSum(high: nat, low: nat)
    requires low < 128
    ensures (256 * high + low + 128) / 256 == high && (256 * high + low + 128) % 256 == low + 128
  {
  }

  /**
    `dhcp_flag_bcast`, on a frame that is long enough for what is read from it.
    Nothing but the datagram's flags and checksum changes.
   */
  method DhcpFlagBcast(little: bool, disabled: bool, skb: array<Word>)
    requires skb.Length > IP_PROTOCOL
    requires IsUdp(little, skb[..]) ==> UdpAt(little, skb[..]) + COOKIE + 2 <= skb.Length
    modifies skb
    ensures var was := old(skb[..]);
            if disabled || !IsDhcpRequest(little, was) then skb[..] == was
            else
              var u := UdpAt(little, was);
              && skb[..u] == was[..u]
              && skb[u..] == SetBroadcast(was[u..], Htons(little, BROADCAST_FLAG))
  {
    if disabled || !IsDhcpRequest(little, skb[..]) {
      return;
    }
    Broadcast(skb, UdpAt(little, skb[..]), Htons(little, BROADCAST_FLAG));
  }

  /** The flag and the checksum of the datagram whose UDP header is at u. */
  method Broadcast(skb: array<Word>, u: nat, flag: Word)
    requires u + FLAGS < skb.Length && flag in {0x8000, 0x80}
    modifies skb
    ensures skb[..u] == old(skb[..u]) && skb[u..] == SetBroadcast(old(skb[u..]), flag)
  {
    if !HasFlag(skb[u + FLAGS], flag) {
      skb[u + FLAGS] := skb[u + FLAGS] + flag;
      var complement: int := 0xFFFF - skb[u + CHECK];
      var sum := Fold(complement + skb[u + FLAGS]);
      skb[u + CHECK] := 0xFFFF - sum;
    }
  }
}
