/** Mutable big numbers, as bn.js has them; every amount in the bonus scripts is non-negative. */
module BigNumbers {
  /** A bn.js number: `add` makes a new one, `iadd` changes this one. */
  class BigNumber {
    var value: nat

    constructor (n: nat)
      ensures value == n
    {
      value := n;
    }

    method Add(other: BigNumber) returns (r: BigNumber)
      ensures fresh(r) && r.value == value + other.value
    {
      r := new BigNumber(value + other.value);
    }

    method IAdd(other: BigNumber)
      modifies this
      ensures value == old(value) + old(other.value)
    {
      value := value + other.value;
    }
  }
}
