/** The profile page: the avatar initials, the password form's checks, and
    the order statistics. */
module ProfilePage {
  import opened Wrappers
  import opened Tables
  import opened Text
  import opened Client
  import Entities
  import Analytics

  /** `s.split(' ')`. */
  function Split(s: string): (words: seq<string>)
    ensures |words| >= 1
    ensures forall i :: 0 <= i < |words| ==> ' ' !in words[i]
  {
    if s == [] then [""]
    else
      var rest := Split(s[1..]);
      if s[0] == ' ' then [""] + rest
      else
        var first := [s[0]] + rest[0];
        assert ' ' !in first;
        assert forall i :: 1 <= i < |rest| ==> ' ' !in rest[i];
        [first] + rest[1..]
  }

  /** `words.join(' ')`. */
  function Join(words: seq<string>): string {
    if words == [] then ""
    else if |words| == 1 then words[0]
    else words[0] + " " + Join(words[1..])
  }

  /** Joining the pieces with the separator gives the string back. */
  lemma {:induction false} JoinSplit(s: string)
    ensures Join(Split(s)) == s
  {
    if s != [] {
      JoinSplit(s[1..]);
      var rest := Split(s[1..]);
      if s[0] == ' ' {
        assert Split(s) == [""] + rest;
        assert Join(Split(s)) == "" + " " + Join(rest);
      } else {
        var first := [s[0]] + rest[0];
        if |rest| == 1 {
          assert Join(Split(s)) == first;
        } else {
          assert Join(rest) == rest[0] + " " + Join(rest[1..]);
          assert Join(Split(s)) == first + " " + Join(rest[1..]);
        }
      }
    }
  }

  /** The first character of each word, concatenated; an empty word has no
      first character and adds nothing. */
  function Heads(words: seq<string>): string {
    if words == [] then ""
    else (if words[0] != "" then [words[0][0]] else "") + Heads(words[1..])
  }

  /** The characters that begin a word: not a space, and first or after a space. */
  function WordStarts(s: string, atStart: bool): string {
    if s == [] then ""
    else (if atStart && s[0] != ' ' then [s[0]] else "") + WordStarts(s[1..], s[0] == ' ')
  }

  /** The heads of the split words are exactly the characters that begin a
      word; skipping the first word skips everything up to the first space. */
  lemma {:induction false} HeadsAreWordStarts(s: string)
    ensures Heads(Split(s)) == WordStarts(s, true)
    ensures Heads(Split(s)[1..]) == WordStarts(s, false)
  {
    if s != [] {
      HeadsAreWordStarts(s[1..]);
      var rest := Split(s[1..]);
      if s[0] == ' ' {
        assert Split(s) == [""] + rest;
        assert Heads(Split(s)) == "" + Heads(rest);
        assert Split(s)[1..] == rest;
      } else {
        var first := [s[0]] + rest[0];
        assert Split(s) == [first] + rest[1..];
        assert Heads(Split(s)) == [s[0]] + Heads(rest[1..]);
        assert Split(s)[1..] == rest[1..];
      }
    }
  }

  /** `getInitials`: "U" without a name, otherwise the upper-cased first
      letters of the words, at most two. */
  function Initials(name: Option<string>): (r: string)
    ensures !Truthy(name) ==> r == "U"
    ensures |r| <= 2
    ensures Truthy(name) ==>
      var starts := Upper(WordStarts(name.value, true));
      r == starts[..if |starts| < 2 then |starts| else 2]
  {
    if !Truthy(name) then "U"
    else
      HeadsAreWordStarts(name.value);
      var all := Upper(Heads(Split(name.value)));
      all[..if |all| < 2 then |all| else 2]
  }

  /** A name that does not start with a space is represented by its own
      first letter, upper-cased. */
  lemma InitialsStartWithName(name: string)
    requires name != "" && name[0] != ' '
    ensures Initials(Some(name)) != "" && Initials(Some(name))[0] == UpperChar(name[0])
  {
    assert WordStarts(name, true) == [name[0]] + WordStarts(name[1..], false);
  }

  const Mismatch := "New passwords do not match"
  const TooShort := "Password must be at least 6 characters"
  const Changed := "Password changed successfully!"
  const ChangeFailed := "Failed to change password"

  /** The form's own checks, in order: the confirmation, then the length in
      UTF-16 code units, as JavaScript counts it. */
  function PasswordProblem(newPassword: string, confirm: string): (e: Option<string>)
    ensures newPassword != confirm ==> e == Some(Mismatch)
    ensures newPassword == confirm && Utf16Length(newPassword) < 6 ==> e == Some(TooShort)
    ensures e.None? <==> newPassword == confirm && Utf16Length(newPassword) >= 6
  {
    if newPassword != confirm then Some(Mismatch)
    else if Utf16Length(newPassword) < 6 then Some(TooShort)
    else None
  }

  /** Three emoji pass the length check: JavaScript counts six code units. */
  lemma EmojiPasswordLongEnough()
    ensures PasswordProblem("\U{1F600}\U{1F600}\U{1F600}", "\U{1F600}\U{1F600}\U{1F600}").None?
  {
    Utf16LengthOfEmoji();
  }

  datatype Message = Message(kind: string, text: string)

  class PasswordForm {
    var current: string
    var newPassword: string
    var confirm: string
    var message: Message

    constructor ()
      ensures current == "" && newPassword == "" && confirm == "" && message == Message("", "")
    {
      current := "";
      newPassword := "";
      confirm := "";
      message := Message("", "");
    }

    /** `handleChangePassword`. The request carries the current and the new
        password and is sent only when the form's checks pass; `reply` is
        its outcome. */
    method Submit(reply: Response<()>) returns (request: Option<(string, string)>)
      modifies this
      ensures request.Some? <==> PasswordProblem(old(newPassword), old(confirm)).None?
      ensures request.Some? ==> request.value == (old(current), old(newPassword))
      ensures request.None? ==> message == Message("error", PasswordProblem(old(newPassword), old(confirm)).value)
      ensures request.Some? && reply.Received? ==>
        current == "" && newPassword == "" && confirm == "" && message == Message("success", Changed)
      ensures request.Some? && !reply.Received? ==> message == Message("error", ErrorText(reply, ChangeFailed))
      ensures !(request.Some? && reply.Received?) ==>
        current == old(current) && newPassword == old(newPassword) && confirm == old(confirm)
    {
      var problem := PasswordProblem(newPassword, confirm);
      if problem.Some? {
        message := Message("error", problem.value);
        return None;
      }
      request := Some((current, newPassword));
      if reply.Received? {
        current, newPassword, confirm := "", "", "";
        message := Message("success", Changed);
      } else {
        message := Message("error", ErrorText(reply, ChangeFailed));
      }
    }
  }

  datatype Stats = Stats(totalOrders: nat, totalSpent: real, cartItems: nat)

  /** An order's amount as a number, or 0 when it does not parse. */
  function Spent(o: ClientOrder): real {
    o.totalAmount.GetOr(0.0)
  }

  /** `loadStats`: both requests must succeed; a body that is not an array
      counts as empty. */
  function LoadStats(cart: Response<Option<seq<CartLine>>>, orders: Response<Option<seq<ClientOrder>>>): (r: Option<Stats>)
    ensures r.Some? <==> cart.Received? && orders.Received?
    ensures r.Some? ==> r.value.totalOrders == |orders.data.GetOr([])| && r.value.cartItems == |cart.data.GetOr([])|
    ensures r.Some? ==> r.value.totalSpent == SumOf(orders.data.GetOr([]), Spent)
  {
    if cart.Received? && orders.Received? then
      var list := orders.data.GetOr([]);
      Some(Stats(|list|, SumOf(list, Spent), |cart.data.GetOr([])|))
    else None
  }

  /** When the orders are the caller's orders as the backend lists them,
      the total spent is the sum of their amounts. */
  lemma SpentMatchesBackend(cart: Response<Option<seq<CartLine>>>, client: seq<ClientOrder>, server: seq<Entities.Order>)
    requires cart.Received?
    requires |client| == |server|
    requires forall i :: 0 <= i < |client| ==> client[i].totalAmount == Some(server[i].totalAmount)
    ensures LoadStats(cart, Received(Some(client))).value.totalSpent == SumOf(server, Analytics.Amount)
    ensures LoadStats(cart, Received(Some(client))).value.totalOrders == |server|
  {
    SumOfSame(client, server, Spent, Analytics.Amount);
  }
}
