/**
 * The user record: the balance that User.add_balance/deduct_balance update
 * in place, and the profile attributes the business rules read.
 */
module UserModel {
  import opened Wrappers

  /**
   * The attributes the rules read from a user: verification, activity and
   * blocking flags, rating, last login, role and referral level.
   */
  datatype Profile = Profile(
    isVerified: bool,
    isActive: bool,
    isBlocked: bool,
    rating: Option<real>,
    lastLogin: Option<int>,
    role: string,
    referralLevel: Option<int>)

  /** A row of the user table as the services see it. */
  datatype Account = Account(balance: real, profile: Profile)

  /** deduct_balance on a balance: whether it succeeds and the balance afterwards. */
  function Deduct(balance: real, amount: real): (r: (bool, real))
    ensures r.0 <==> balance >= amount
    ensures r.0 ==> r.1 + amount == balance && r.1 >= 0.0
    ensures !r.0 ==> r.1 == balance
  {
    if balance >= amount then (true, balance - amount) else (false, balance)
  }

  /** Two successful deductions take exactly their sum, and the balance stays >= 0. */
  lemma DeductTwice(balance: real, a: real, b: real)
    requires Deduct(balance, a).0 && Deduct(Deduct(balance, a).1, b).0
    ensures Deduct(Deduct(balance, a).1, b).1 == balance - a - b
    ensures balance - a - b >= 0.0
  {
  }

  class User {
    var balance: real

    constructor (balance: real)
      ensures this.balance == balance
    {
      this.balance := balance;
    }

    /** add_balance: the balance rises by exactly `amount`. */
    method AddBalance(amount: real)
      modifies this
      ensures balance == old(balance) + amount
    {
      balance := balance + amount;
    }

    /** deduct_balance: subtracts only when the balance covers the amount. */
    method DeductBalance(amount: real) returns (ok: bool)
      modifies this
      ensures (ok, balance) == Deduct(old(balance), amount)
    {
      if balance >= amount {
        balance := balance - amount;
        return true;
      }
      return false;
    }
  }
}
