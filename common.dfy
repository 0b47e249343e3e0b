/** Small shared vocabulary: an optional value, JavaScript truthiness of a map
    entry, and the integer facts that the cyclic cursors rely on. */
module Common {

  datatype Option<T> = None | Some(value: T)

  /** `if (m[k])` on a dictionary of strings: the entry exists and is not the
      empty string (the only falsy string value). */
  predicate Truthy<K>(m: map<K, string>, k: K)
  {
    k in m && m[k] != ""
  }

  /** Euclidean division is determined by any quotient/remainder pair. */
  lemma ModUnique(x: int, n: int, q: int, r: int)
    requires n > 0 && 0 <= r < n && x == q * n + r
    ensures x % n == r && x / n == q
  {
    var q', r' := x / n, x % n;
    assert (q - q') * n == r' - r by {
      assert (q - q') * n == q * n - q' * n;
    }
    if q' < q {
      MulAtLeast(q - q', n);
    } else if q < q' {
      MulAtLeast(q' - q, n);
    }
  }

  lemma MulAtLeast(a: int, n: int)
    requires a >= 1 && n > 0
    ensures a * n >= n
  {
    assert a * n == (a - 1) * n + n;
  }

  /** Adding a multiple of `n` does not change the residue. */
  lemma ModAddMultiple(x: int, k: int, n: int)
    requires n > 0
    ensures (x + k * n) % n == x % n
  {
    ModUnique(x + k * n, n, x / n + k, x % n);
  }

  /** One step of a cyclic cursor is the residue of the successor. */
  lemma ModSucc(x: int, n: int, r: int)
    requires n > 0 && r == x % n
    ensures (r + 1) % n == (x + 1) % n
  {
    var q := x / n;
    assert x == q * n + r;
    if r + 1 < n {
      ModUnique(x + 1, n, q, r + 1);
    } else {
      ModUnique(x + 1, n, q + 1, 0);
    }
  }

  /** Fewer than `n` steps apart, two numbers have different residues. */
  lemma ModDistinct(x: int, y: int, n: int)
    requires n > 0 && x < y < x + n
    ensures x % n != y % n
  {
    var qx, qy := x / n, y / n;
    if x % n == y % n {
      assert (qy - qx) * n == y - x by {
        assert (qy - qx) * n == qy * n - qx * n;
      }
      if qy - qx >= 1 {
        MulAtLeast(qy - qx, n);
      } else {
        MulAtLeast(qx - qy + 1, n);
      }
    }
  }
}
