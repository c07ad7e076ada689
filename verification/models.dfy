/**
 * The persisted payment-detail entity (PaymentServer/Models/PaymentDetail.cs)
 * and the column widths its schema declares.
 */
module Models {
  import opened Text

  /** One row of the PaymentDetails table; `paymentDetailsID` is the primary key. */
  datatype PaymentDetail = PaymentDetail(
    paymentDetailsID: int,
    cardOwnerName: string,
    cardNumber: string,
    expirationDate: string,
    cvc: string)

  // Declared column types: nvarchar(100), nvarchar(16), nvarchar(5), nvarchar(3).
  const CardOwnerNameWidth: nat := 100
  const CardNumberWidth: nat := 16
  const ExpirationDateWidth: nat := 5
  const CvcWidth: nat := 3

  /** The record can be written without truncation into its declared columns (widths in UTF-16 units). */
  predicate FitsColumns(p: PaymentDetail) {
    && Utf16Length(p.cardOwnerName) <= CardOwnerNameWidth
    && Utf16Length(p.cardNumber) <= CardNumberWidth
    && Utf16Length(p.expirationDate) <= ExpirationDateWidth
    && Utf16Length(p.cvc) <= CvcWidth
  }

  /** Every record of the table sits under its own primary key. */
  predicate KeyedById(table: map<int, PaymentDetail>) {
    forall id :: id in table ==> table[id].paymentDetailsID == id
  }

  /** The store invariant: every row fits its columns. */
  predicate AllFitColumns(table: map<int, PaymentDetail>) {
    forall id :: id in table ==> FitsColumns(table[id])
  }

  /** Because records carry their key, distinct keys hold distinct records. */
  lemma {:induction false} KeyedRowCount(table: map<int, PaymentDetail>)
    requires KeyedById(table)
    ensures |table.Values| == |table|
  {
    if table != map[] {
      var keys := table.Keys;
      if forall k :: k !in keys {
        assert false;
      }
      var k :| k in keys;
      var rest := table - {k};
      KeyedRowCount(rest);
      RemoveKeyedRow(table, k);
      assert |rest.Keys| == |table.Keys| - 1;
    }
  }

  /** Removing one key of a keyed table removes exactly that key's record from its values. */
  lemma RemoveKeyedRow(table: map<int, PaymentDetail>, k: int)
    requires KeyedById(table) && k in table
    ensures (table - {k}).Values == table.Values - {table[k]}
  {
    var rest := table - {k};
    forall v | v in table.Values - {table[k]}
      ensures v in rest.Values
    {
      if forall j :: j in table ==> table[j] != v {
        assert false;
      }
      var j :| j in table && table[j] == v;
      assert j != k && rest[j] == v;
    }
    forall v | v in rest.Values
      ensures v in table.Values - {table[k]}
    {
      if forall j :: j in rest ==> rest[j] != v {
        assert false;
      }
      var j :| j in rest && rest[j] == v;
      assert table[j] == v && v.paymentDetailsID == j != k;
    }
  }

  /** Some integer is not yet used as a key: the database can always pick a new identity. */
  lemma {:induction false} UnusedIdExists(ids: set<int>) returns (b: int)
    ensures forall id :: id in ids ==> id < b
    ensures b !in ids
  {
    if ids == {} {
      b := 0;
    } else {
      if forall y :: y !in ids {
        assert false;
      }
      var x :| x in ids;
      var rest := ids - {x};
      var b' := UnusedIdExists(rest);
      b := if x < b' then b' else x + 1;
      assert forall id :: id in ids ==> id == x || id in rest;
    }
  }
}
