/** The in-flight / QoS2 store key: the client identifier followed by the
    decimal rendering of the message identifier (`String.format("%s%d", ...)`).
    Message identifiers are modelled as natural numbers (MQTT packet
    identifiers are 16-bit unsigned values, never negative). */
module Keys {

  predicate IsDigit(c: char) {
    '0' <= c <= '9'
  }

  function DigitChar(d: nat): (c: char)
    requires d < 10
    ensures IsDigit(c) && DigitValue(c) == d
  {
    (('0' as int) + d) as char
  }

  function DigitValue(c: char): nat
    requires IsDigit(c)
  {
    (c as int) - ('0' as int)
  }

  /** `%d` of a non-negative integer: digits only, no leading zero. */
  function Decimal(n: nat): (r: string)
    ensures |r| >= 1
    ensures forall i :: 0 <= i < |r| ==> IsDigit(r[i])
    ensures r[0] == '0' <==> n == 0
    decreases n
  {
    if n < 10 then [DigitChar(n)] else Decimal(n / 10) + [DigitChar(n % 10)]
  }

  /** Reads a string of digits back as a number (the inverse of Decimal). */
  function ParseDecimal(s: string): nat
    requires forall i :: 0 <= i < |s| ==> IsDigit(s[i])
    decreases |s|
  {
    if s == [] then 0 else ParseDecimal(s[..|s| - 1]) * 10 + DigitValue(s[|s| - 1])
  }

  lemma {:induction false} DecimalRoundTrip(n: nat)
    ensures ParseDecimal(Decimal(n)) == n
    decreases n
  {
    if n >= 10 {
      var d := Decimal(n);
      assert d[..|d| - 1] == Decimal(n / 10);
      DecimalRoundTrip(n / 10);
    }
  }

  lemma DecimalInjective(m1: nat, m2: nat)
    ensures Decimal(m1) == Decimal(m2) ==> m1 == m2
  {
    DecimalRoundTrip(m1);
    DecimalRoundTrip(m2);
  }

  /** The key under which in-flight and QoS2 records of a client's message are stored. */
  function InFlightKey(clientID: string, messageID: nat): (k: string)
    ensures |k| > |clientID| && k[..|clientID|] == clientID
    ensures forall i :: |clientID| <= i < |k| ==> IsDigit(k[i])
  {
    clientID + Decimal(messageID)
  }

  /** For one client, distinct message identifiers give distinct keys. */
  lemma InFlightKeySameClient(clientID: string, m1: nat, m2: nat)
    ensures InFlightKey(clientID, m1) == InFlightKey(clientID, m2) ==> m1 == m2
  {
    if InFlightKey(clientID, m1) == InFlightKey(clientID, m2) {
      var k := InFlightKey(clientID, m1);
      assert Decimal(m1) == k[|clientID|..];
      assert Decimal(m2) == k[|clientID|..];
      DecimalInjective(m1, m2);
    }
  }

  /** For one message identifier, distinct clients give distinct keys. */
  lemma InFlightKeySameMessage(c1: string, c2: string, messageID: nat)
    ensures InFlightKey(c1, messageID) == InFlightKey(c2, messageID) ==> c1 == c2
  {
    if InFlightKey(c1, messageID) == InFlightKey(c2, messageID) {
      var k := InFlightKey(c1, messageID);
      assert |c1| == |c2|;
      assert c1 == k[..|c1|] == c2;
    }
  }

  /** The key is not injective: client "a1" with message 2 and client "a"
      with message 12 share the key "a12", so their records overwrite each other. */
  lemma InFlightKeyCollision()
    ensures "a1" != "a" && InFlightKey("a1", 2) == InFlightKey("a", 12)
  {
    assert Decimal(12) == Decimal(1) + [DigitChar(2)];
  }

  predicate EndsWithDigit(s: string) {
    |s| > 0 && IsDigit(s[|s| - 1])
  }

  /** Collisions need a client identifier ending in a digit: when neither
      identifier does, the key determines both the client and the message. */
  lemma InFlightKeyInjectiveWithoutTrailingDigit(c1: string, m1: nat, c2: string, m2: nat)
    requires !EndsWithDigit(c1) && !EndsWithDigit(c2)
    ensures InFlightKey(c1, m1) == InFlightKey(c2, m2) ==> c1 == c2 && m1 == m2
  {
    if InFlightKey(c1, m1) == InFlightKey(c2, m2) {
      var k := InFlightKey(c1, m1);
      if |c1| != |c2| {
        assert false;
      }
      assert c1 == k[..|c1|] == c2;
      InFlightKeySameClient(c1, m1, m2);
    }
  }
}
