/** How the browser client sees the program's log: the Anchor client decodes
    an enum value as an object with one key, the variant's name in camelCase,
    and the pages compare that key after JavaScript's `toUpperCase`. */
module AnchorClient {
  import opened Wrappers
  import opened Bank

  /** `toUpperCase` on one character, for the ASCII range. */
  function UpperChar(c: char): char {
    if 'a' <= c <= 'z' then (c as int - 32) as char else c
  }

  /** `toUpperCase` on a string, character by character (ASCII only). */
  function Upper(s: string): string {
    seq(|s|, i requires 0 <= i < |s| => UpperChar(s[i]))
  }

  /** `Object.keys(tx.txnType)[0]` for a decoded on-chain transaction. */
  function VariantKey(t: TransactionType): string {
    match t
    case Deposit => "deposit"
    case Withdraw => "withdraw"
  }

  /** The upper-cased keys of the two variants are the labels the pages
      compare against, and they differ. */
  lemma VariantLabels()
    ensures Upper(VariantKey(TransactionType.Deposit)) == "DEPOSIT"
    ensures Upper(VariantKey(TransactionType.Withdraw)) == "WITHDRAW"
    ensures Upper("Deposit") == "DEPOSIT" && Upper("Withdraw") == "WITHDRAW"
  {
    assert Upper("deposit") == Upper("Deposit") == "DEPOSIT" by {
      assert forall i :: 0 <= i < 7 ==> Upper("deposit")[i] == Upper("Deposit")[i] == "DEPOSIT"[i];
    }
    assert Upper("withdraw") == Upper("Withdraw") == "WITHDRAW" by {
      assert forall i :: 0 <= i < 8 ==> Upper("withdraw")[i] == Upper("Withdraw")[i] == "WITHDRAW"[i];
    }
  }

  /** A log entry as the dashboard handles it: only the first key of its
      `txnType`, which is absent when the field is missing or empty. */
  datatype Entry = Entry(typeKey: Option<string>)

  /** The entry the client obtains for an on-chain transaction. */
  function Decoded(t: Transaction): Entry {
    Entry(Some(VariantKey(t.txnType)))
  }

  function DecodedHistory(history: seq<Transaction>): seq<Entry> {
    seq(|history|, i requires 0 <= i < |history| => Decoded(history[i]))
  }
}
