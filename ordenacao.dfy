/** Python's `sorted(..., key=...)` and `list.sort(key=...)`: a stable sort
    by a key compared with a strict weak order (`<` on the key). The
    insertion sort below is a reference definition of that library call,
    characterised by the three lemmas at the end: the result is ordered, a
    permutation of the input, and keeps the input order among equal keys. */
module Ordenacao {
  import opened Texto

  /** What Python's `<` on sort keys has to be: irreflexive, transitive,
      and whenever `a < b` every `c` is above `a` or below `b`. */
  ghost predicate OrdemFraca<K(!new)>(menor: (K, K) -> bool)
  {
    (forall a :: !menor(a, a))
    && (forall a, b, c :: menor(a, b) && menor(b, c) ==> menor(a, c))
    && (forall a, b, c :: menor(a, b) ==> menor(a, c) || menor(c, b))
  }

  /** A sort key `(a, b)` of two reals, compared as a tuple. */
  datatype Chave = Chave(a: real, b: real)

  /** Strict tuple order. */
  predicate Menor(x: Chave, y: Chave)
  {
    x.a < y.a || (x.a == y.a && x.b < y.b)
  }

  lemma MenorOrdemFraca()
    ensures OrdemFraca(Menor)
  {
  }

  /** Python's `<` on strings: code point by code point, a proper prefix
      coming first. */
  predicate MenorTexto(a: string, b: string)
  {
    !LexLe(b, a)
  }

  lemma MenorTextoOrdemFraca()
    ensures OrdemFraca(MenorTexto)
  {
    forall a ensures !MenorTexto(a, a) {
      LexLeTotal(a, a);
    }
    forall a, b, c | MenorTexto(a, b) && MenorTexto(b, c) ensures MenorTexto(a, c) {
      LexLeTotal(a, b);
      if LexLe(c, a) {
        LexLeTransitive(c, a, b);
      }
    }
    forall a, b, c | MenorTexto(a, b) ensures MenorTexto(a, c) || MenorTexto(c, b) {
      if LexLe(c, a) && LexLe(b, c) {
        LexLeTransitive(b, c, a);
      }
    }
  }

  predicate Ordenada<T, K>(s: seq<T>, chave: T -> K, menor: (K, K) -> bool)
  {
    forall i, j :: 0 <= i < j < |s| ==> !menor(chave(s[j]), chave(s[i]))
  }

  /** `x` placed before the first element of `s` whose key is greater. */
  function Inserir<T, K>(x: T, s: seq<T>, chave: T -> K, menor: (K, K) -> bool): (r: seq<T>)
    ensures |r| == |s| + 1
  {
    if |s| == 0 then [x]
    else if menor(chave(x), chave(s[0])) then [x] + s
    else [s[0]] + Inserir(x, s[1..], chave, menor)
  }

  function Ordenar<T, K>(s: seq<T>, chave: T -> K, menor: (K, K) -> bool): (r: seq<T>)
    ensures |r| == |s|
  {
    if |s| == 0 then [] else Inserir(s[|s| - 1], Ordenar(s[..|s| - 1], chave, menor), chave, menor)
  }

  /** The elements of `s` whose key is `k`, in their order in `s`. */
  function ComChave<T, K(==)>(s: seq<T>, chave: T -> K, k: K): seq<T>
  {
    if |s| == 0 then []
    else (if chave(s[0]) == k then [s[0]] else []) + ComChave(s[1..], chave, k)
  }

  lemma {:induction false} ComChaveConcat<T, K>(a: seq<T>, b: seq<T>, chave: T -> K, k: K)
    ensures ComChave(a + b, chave, k) == ComChave(a, chave, k) + ComChave(b, chave, k)
  {
    if |a| == 0 {
      assert a + b == b;
    } else {
      var ab := a + b;
      assert ab[0] == a[0];
      assert ab[1..] == a[1..] + b;
      ComChaveConcat(a[1..], b, chave, k);
      var h := if chave(a[0]) == k then [a[0]] else [];
      calc {
        ComChave(ab, chave, k);
        h + ComChave(a[1..] + b, chave, k);
        h + (ComChave(a[1..], chave, k) + ComChave(b, chave, k));
        (h + ComChave(a[1..], chave, k)) + ComChave(b, chave, k);
        ComChave(a, chave, k) + ComChave(b, chave, k);
      }
    }
  }

  lemma {:induction false} InserirPermuta<T, K>(x: T, s: seq<T>, chave: T -> K, menor: (K, K) -> bool)
    ensures multiset(Inserir(x, s, chave, menor)) == multiset(s) + multiset{x}
  {
    if |s| > 0 && !menor(chave(x), chave(s[0])) {
      InserirPermuta(x, s[1..], chave, menor);
      assert s == [s[0]] + s[1..];
    }
  }

  lemma {:induction false} InserirOrdenada<T, K(!new)>(x: T, s: seq<T>, chave: T -> K, menor: (K, K) -> bool)
    requires OrdemFraca(menor)
    requires Ordenada(s, chave, menor)
    ensures Ordenada(Inserir(x, s, chave, menor), chave, menor)
  {
    if |s| > 0 && !menor(chave(x), chave(s[0])) {
      var t := Inserir(x, s[1..], chave, menor);
      InserirOrdenada(x, s[1..], chave, menor);
      InserirPermuta(x, s[1..], chave, menor);
      forall j | 0 <= j < |t| ensures !menor(chave(t[j]), chave(s[0])) {
        assert t[j] in multiset(t);
        if t[j] != x {
          assert t[j] in multiset(s[1..]);
          var m :| 0 <= m < |s[1..]| && s[1..][m] == t[j];
          assert s[m + 1] == t[j];
        }
      }
      var r := [s[0]] + t;
      forall i, j | 0 <= i < j < |r| ensures !menor(chave(r[j]), chave(r[i])) {
        if i == 0 {
          assert r[j] == t[j - 1];
        } else {
          assert r[i] == t[i - 1] && r[j] == t[j - 1];
        }
      }
    } else if |s| > 0 {
      InserirAntes(x, s, chave, menor);
    }
  }

  /** `x` before the first element of `s`, when its key is smaller. */
  lemma InserirAntes<T, K(!new)>(x: T, s: seq<T>, chave: T -> K, menor: (K, K) -> bool)
    requires OrdemFraca(menor)
    requires Ordenada(s, chave, menor) && |s| > 0 && menor(chave(x), chave(s[0]))
    ensures Ordenada([x] + s, chave, menor)
  {
    var r := [x] + s;
    forall i, j | 0 <= i < j < |r| ensures !menor(chave(r[j]), chave(r[i])) {
      if i == 0 {
        assert r[j] == s[j - 1];
        Transitiva(menor, chave(s[j - 1]), chave(x), chave(s[0]));
      } else {
        assert r[i] == s[i - 1] && r[j] == s[j - 1];
      }
    }
  }

  lemma Transitiva<K(!new)>(menor: (K, K) -> bool, a: K, b: K, c: K)
    requires OrdemFraca(menor)
    ensures menor(a, b) && menor(b, c) ==> menor(a, c)
    ensures menor(a, c) ==> menor(a, b) || menor(b, c)
    ensures !(menor(a, b) && menor(b, a)) && !menor(a, a)
  {
  }

  /** No element of `s` has the key of an element that precedes its first. */
  lemma {:induction false} SemChaveMenor<T, K(!new)>(x: T, s: seq<T>, chave: T -> K, menor: (K, K) -> bool)
    requires OrdemFraca(menor)
    requires Ordenada(s, chave, menor) && |s| > 0 && menor(chave(x), chave(s[0]))
    ensures ComChave(s, chave, chave(x)) == []
  {
    if |s| > 1 {
      assert !menor(chave(s[1]), chave(s[0]));
      Transitiva(menor, chave(x), chave(s[1]), chave(s[0]));
      assert Ordenada(s[1..], chave, menor);
      SemChaveMenor(x, s[1..], chave, menor);
    }
  }

  lemma {:induction false} InserirEstavel<T, K(!new)>(x: T, s: seq<T>, chave: T -> K, menor: (K, K) -> bool, k: K)
    requires OrdemFraca(menor)
    requires Ordenada(s, chave, menor)
    ensures ComChave(Inserir(x, s, chave, menor), chave, k)
      == ComChave(s, chave, k) + (if chave(x) == k then [x] else [])
  {
    if |s| == 0 {
      assert ComChave([x], chave, k) == (if chave(x) == k then [x] else []) + ComChave([x][1..], chave, k);
    } else if menor(chave(x), chave(s[0])) {
      var r := [x] + s;
      assert r[0] == x && r[1..] == s;
      if chave(x) == k {
        SemChaveMenor(x, s, chave, menor);
        assert ComChave(r, chave, k) == [x] + ComChave(s, chave, k);
      } else {
        assert ComChave(r, chave, k) == ComChave(s, chave, k);
      }
    } else {
      assert Ordenada(s[1..], chave, menor);
      InserirEstavel(x, s[1..], chave, menor, k);
      var r := [s[0]] + Inserir(x, s[1..], chave, menor);
      assert r[0] == s[0] && r[1..] == Inserir(x, s[1..], chave, menor);
    }
  }

  /** The result is ordered by key. */
  lemma {:induction false} OrdenarOrdena<T, K(!new)>(s: seq<T>, chave: T -> K, menor: (K, K) -> bool)
    requires OrdemFraca(menor)
    ensures Ordenada(Ordenar(s, chave, menor), chave, menor)
  {
    if |s| > 0 {
      OrdenarOrdena(s[..|s| - 1], chave, menor);
      InserirOrdenada(s[|s| - 1], Ordenar(s[..|s| - 1], chave, menor), chave, menor);
    }
  }

  /** The result holds the same elements as the input. */
  lemma {:induction false} OrdenarPermuta<T, K>(s: seq<T>, chave: T -> K, menor: (K, K) -> bool)
    ensures multiset(Ordenar(s, chave, menor)) == multiset(s)
  {
    if |s| > 0 {
      OrdenarPermuta(s[..|s| - 1], chave, menor);
      InserirPermuta(s[|s| - 1], Ordenar(s[..|s| - 1], chave, menor), chave, menor);
      assert s == s[..|s| - 1] + [s[|s| - 1]];
    }
  }

  /** Stability: elements of equal key keep their input order. */
  lemma {:induction false} OrdenarEstavel<T, K(!new)>(s: seq<T>, chave: T -> K, menor: (K, K) -> bool, k: K)
    requires OrdemFraca(menor)
    ensures ComChave(Ordenar(s, chave, menor), chave, k) == ComChave(s, chave, k)
  {
    if |s| > 0 {
      var p, x := s[..|s| - 1], s[|s| - 1];
      OrdenarEstavel(p, chave, menor, k);
      OrdenarOrdena(p, chave, menor);
      InserirEstavel(x, Ordenar(p, chave, menor), chave, menor, k);
      assert s == p + [x];
      ComChaveConcat(p, [x], chave, k);
      assert ComChave([x], chave, k) == (if chave(x) == k then [x] else []) + ComChave([x][1..], chave, k);
    }
  }
}
