/** Users' referral codes: a three-letter prefix taken from the name,
    followed by a random four-digit number, redrawn until no user holds
    the code. */
module ReferralCodes {
  import opened Wrappers
  import opened Text
  import opened Market

  const PREFIX_LENGTH := 3
  const CODE_LENGTH := 7
  const LOWEST_NUMBER := 1000
  const HIGHEST_NUMBER := 9999

  /** The ASCII letters of a name, in order. */
  function Letters(name: string): (r: string)
    ensures |r| <= |name|
    ensures forall i | 0 <= i < |r| :: IsAsciiLetter(r[i])
  {
    if name == [] then []
    else (if IsAsciiLetter(name[0]) then [name[0]] else []) + Letters(name[1..])
  }

  /** Letters are kept, everything else dropped, and order preserved: the
      letters of a concatenation are the letters of each part. */
  lemma {:induction false} LettersAppend(a: string, b: string)
    ensures Letters(a + b) == Letters(a) + Letters(b)
    decreases |a|
  {
    if a == [] {
      assert a + b == b;
    } else {
      assert (a + b)[1..] == a[1..] + b;
      LettersAppend(a[1..], b);
      var head := if IsAsciiLetter(a[0]) then [a[0]] else [];
      assert Letters(a + b) == head + (Letters(a[1..]) + Letters(b));
      assert Letters(a) == head + Letters(a[1..]);
    }
  }

  /** A name made only of letters is its own letter sequence. */
  lemma {:induction false} LettersOfLetters(s: string)
    requires forall i | 0 <= i < |s| :: IsAsciiLetter(s[i])
    ensures Letters(s) == s
    decreases |s|
  {
    if s != [] {
      LettersOfLetters(s[1..]);
      assert s == [s[0]] + s[1..];
    }
  }

  /** Right-padding with 'X' to three characters. */
  function Padded(s: string): (r: string)
    ensures |r| == if |s| < PREFIX_LENGTH then PREFIX_LENGTH else |s|
    ensures r[..|s|] == s
    ensures forall i | |s| <= i < |r| :: r[i] == 'X'
    decreases PREFIX_LENGTH - |s|
  {
    if |s| < PREFIX_LENGTH then Padded(s + "X") else s
  }

  /** The prefix: the first three letters of the name, padded with 'X'
      when there are fewer, upper-cased. */
  function Prefix(name: string): (p: string)
    ensures |p| == PREFIX_LENGTH
    ensures forall i | 0 <= i < PREFIX_LENGTH :: IsUpper(p[i])
    ensures forall i | 0 <= i < PREFIX_LENGTH ::
              p[i] == (if i < |Letters(name)| then ToUpper(Letters(name)[i]) else 'X')
  {
    var padded := Padded(Letters(name));
    assert forall i | 0 <= i < |Letters(name)| :: padded[i] == Letters(name)[i];
    Upper(padded[..PREFIX_LENGTH])
  }

  /** Only the letters of the name decide the prefix. */
  lemma PrefixOfLetters(name: string)
    ensures Prefix(Letters(name)) == Prefix(name)
  {
    LettersOfLetters(Letters(name));
  }

  /** A code: the prefix followed by the number's decimal digits. */
  function Code(prefix: string, n: nat): (code: string)
    requires |prefix| == PREFIX_LENGTH && LOWEST_NUMBER <= n <= HIGHEST_NUMBER
    ensures |code| == CODE_LENGTH && code[..PREFIX_LENGTH] == prefix
    ensures forall i | PREFIX_LENGTH <= i < CODE_LENGTH :: IsDigit(code[i])
  {
    FourDigits(n);
    prefix + NatToString(n)
  }

  /** Numbers `rand(1000, 9999)` can return. */
  predicate InRange(draws: seq<nat>)
  {
    forall k | 0 <= k < |draws| :: LOWEST_NUMBER <= draws[k] <= HIGHEST_NUMBER
  }

  /** The code of the first draw that no user holds. */
  function FirstFreeCode(taken: set<string>, prefix: string, draws: seq<nat>): (r: Option<string>)
    requires |prefix| == PREFIX_LENGTH && InRange(draws)
    ensures r.Some? ==> r.value !in taken
    ensures r.Some? ==> exists k :: 0 <= k < |draws| && r.value == Code(prefix, draws[k])
                                    && forall j | 0 <= j < k :: Code(prefix, draws[j]) in taken
    ensures r.None? ==> forall k | 0 <= k < |draws| :: Code(prefix, draws[k]) in taken
  {
    if draws == [] then None
    else if Code(prefix, draws[0]) !in taken then Some(Code(prefix, draws[0]))
    else
      var rest := FirstFreeCode(taken, prefix, draws[1..]);
      assert forall k | 1 <= k < |draws| :: draws[k] == draws[1..][k - 1];
      if rest.Some? then
        var k' :| 0 <= k' < |draws[1..]| && rest.value == Code(prefix, draws[1..][k'])
                  && forall j | 0 <= j < k' :: Code(prefix, draws[1..][j]) in taken;
        assert rest.value == Code(prefix, draws[k' + 1]);
        rest
      else rest
  }

  /** The do-while loop redrawing until the code is free. */
  method DrawCode(taken: set<string>, prefix: string, draws: seq<nat>) returns (code: string)
    requires |prefix| == PREFIX_LENGTH && InRange(draws)
    requires FirstFreeCode(taken, prefix, draws).Some?
    ensures Some(code) == FirstFreeCode(taken, prefix, draws)
  {
    var i := 0;
    code := Code(prefix, draws[0]);
    while code in taken
      invariant 0 <= i < |draws| && code == Code(prefix, draws[i])
      invariant FirstFreeCode(taken, prefix, draws) == FirstFreeCode(taken, prefix, draws[i..])
      decreases |draws| - i
    {
      assert draws[i..][1..] == draws[i + 1..];
      i := i + 1;
      code := Code(prefix, draws[i]);
    }
  }

  /** A user holds a code when it is set and truthy. */
  predicate HasCode(u: User)
  {
    u.referralCode.Some? && Truthy(u.referralCode.value)
  }

  /** Every code some user holds. */
  function Taken(users: map<string, User>): (t: set<string>)
    ensures forall id | id in users && users[id].referralCode.Some? :: users[id].referralCode.value in t
  {
    set id | id in users && users[id].referralCode.Some? :: users[id].referralCode.value
  }

  /** The users and the code after generating one for a user: an existing
      code is kept and nothing changes; otherwise the first free code is
      stored on the user. */
  function WithCode(users: map<string, User>, id: string, draws: seq<nat>): (r: (map<string, User>, string))
    requires id in users && InRange(draws)
    requires !HasCode(users[id]) ==> FirstFreeCode(Taken(users), Prefix(users[id].name), draws).Some?
    ensures HasCode(users[id]) ==> r.0 == users && r.1 == users[id].referralCode.value
    ensures !HasCode(users[id]) ==> (&& r.1 !in Taken(users) && |r.1| == CODE_LENGTH
                                    && r.1[..PREFIX_LENGTH] == Prefix(users[id].name)
                                    && r.0 == users[id := users[id].(referralCode := Some(r.1))])
    ensures id in r.0 && HasCode(r.0[id]) && r.0[id].referralCode == Some(r.1)
  {
    if HasCode(users[id]) then (users, users[id].referralCode.value)
    else
      var code := FirstFreeCode(Taken(users), Prefix(users[id].name), draws).value;
      (users[id := users[id].(referralCode := Some(code))], code)
  }

  /** Generating again, with any draws, returns the same code and changes
      nothing. */
  lemma GenerateIdempotent(users: map<string, User>, id: string, draws: seq<nat>, again: seq<nat>)
    requires id in users && InRange(draws) && InRange(again)
    requires !HasCode(users[id]) ==> FirstFreeCode(Taken(users), Prefix(users[id].name), draws).Some?
    ensures WithCode(WithCode(users, id, draws).0, id, again) == WithCode(users, id, draws)
  {
  }

  /** No two users hold the same code. */
  predicate CodesUnique(users: map<string, User>)
  {
    forall a, b | a in users && b in users && a != b && HasCode(users[a]) && HasCode(users[b])
      :: users[a].referralCode != users[b].referralCode
  }

  /** Storing a new user whose code nobody holds keeps codes unique. */
  lemma InsertKeepsUnique(users: map<string, User>, id: string, u: User)
    requires id !in users && CodesUnique(users)
    requires !(u.referralCode.Some? && u.referralCode.value in Taken(users))
    ensures CodesUnique(users[id := u])
  {
    var after := users[id := u];
    forall a, b | a in after && b in after && a != b && HasCode(after[a]) && HasCode(after[b])
      ensures after[a].referralCode != after[b].referralCode
    {
      if a == id {
        assert users[b].referralCode.value in Taken(users);
      } else if b == id {
        assert users[a].referralCode.value in Taken(users);
      }
    }
  }

  /** Generating a code keeps codes unique. */
  lemma GenerateKeepsUnique(users: map<string, User>, id: string, draws: seq<nat>)
    requires id in users && InRange(draws)
    requires !HasCode(users[id]) ==> FirstFreeCode(Taken(users), Prefix(users[id].name), draws).Some?
    requires CodesUnique(users)
    ensures CodesUnique(WithCode(users, id, draws).0)
  {
    var (after, code) := WithCode(users, id, draws);
    if !HasCode(users[id]) {
      forall a, b | a in after && b in after && a != b && HasCode(after[a]) && HasCode(after[b])
        ensures after[a].referralCode != after[b].referralCode
      {
        if a == id {
          assert users[b].referralCode.value in Taken(users);
        } else if b == id {
          assert users[a].referralCode.value in Taken(users);
        }
      }
    }
  }

  /** The users table, with the referral-code operations of a user. */
  class Referrals {
    const directory: UserDirectory

    constructor (directory: UserDirectory)
      ensures this.directory == directory
    {
      this.directory := directory;
    }

    /** Returns the user's code, generating and storing one first when the
        user has none. */
    method GenerateReferralCode(userId: string, draws: seq<nat>) returns (code: string)
      requires userId in directory.users && InRange(draws)
      requires !HasCode(directory.users[userId]) ==>
                 FirstFreeCode(Taken(directory.users), Prefix(directory.users[userId].name), draws).Some?
      modifies directory`users
      ensures (directory.users, code) == WithCode(old(directory.users), userId, draws)
    {
      var u := directory.users[userId];
      if HasCode(u) {
        return u.referralCode.value;
      }
      code := DrawCode(Taken(directory.users), Prefix(u.name), draws);
      directory.users := directory.users[userId := u.(referralCode := Some(code))];
    }

    /** The same, entered only when the user has no code. */
    method EnsureReferralCode(userId: string, draws: seq<nat>) returns (code: string)
      requires userId in directory.users && InRange(draws)
      requires !HasCode(directory.users[userId]) ==>
                 FirstFreeCode(Taken(directory.users), Prefix(directory.users[userId].name), draws).Some?
      modifies directory`users
      ensures (directory.users, code) == WithCode(old(directory.users), userId, draws)
    {
      if !HasCode(directory.users[userId]) {
        code := GenerateReferralCode(userId, draws);
      } else {
        code := directory.users[userId].referralCode.value;
      }
    }

    /** Creating a user: a row whose code another user already holds is
        rejected by the column's unique index and nothing is stored;
        otherwise the row is stored, then given a code when it arrived
        without one. */
    method Create(userId: string, u: User, draws: seq<nat>) returns (stored: bool)
      requires userId !in directory.users && InRange(draws)
      requires !HasCode(u) ==> FirstFreeCode(Taken(directory.users[userId := u]), Prefix(u.name), draws).Some?
      modifies directory`users
      ensures stored <==> !(u.referralCode.Some? && u.referralCode.value in Taken(old(directory.users)))
      ensures !stored ==> directory.users == old(directory.users)
      ensures stored ==> directory.users == WithCode(old(directory.users)[userId := u], userId, draws).0
      ensures CodesUnique(old(directory.users)) ==> CodesUnique(directory.users)
    {
      if u.referralCode.Some? && u.referralCode.value in Taken(directory.users) {
        return false;
      }
      if CodesUnique(directory.users) {
        InsertKeepsUnique(directory.users, userId, u);
        GenerateKeepsUnique(directory.users[userId := u], userId, draws);
      }
      directory.users := directory.users[userId := u];
      if !HasCode(u) {
        var _ := GenerateReferralCode(userId, draws);
      }
      stored := true;
    }
  }
}
