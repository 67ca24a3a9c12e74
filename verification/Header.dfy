// header.go: a header is a map that is updated in place and may be shared.
module Header {
  import opened Basics

  class HeaderMap {
    var m: Headers

    constructor (init: Headers)
      ensures m == init
    {
      m := init;
    }

    method Set(key: string, value: string)
      modifies this
      ensures m == old(m)[key := value]
    {
      m := m[key := value];
    }

    method Del(key: string)
      modifies this
      ensures m == old(m) - {key}
    {
      m := m - {key};
    }

    function Get(key: string): string
      reads this
    {
      HeaderGet(m, key)
    }

    // header.go:26-32: a new map with the same entries.
    method Clone() returns (h: HeaderMap)
      ensures fresh(h) && h.m == m
    {
      h := new HeaderMap(map[]);
      var todo := m.Keys;
      while todo != {}
        invariant todo <= m.Keys && fresh(h)
        invariant h.m.Keys == m.Keys - todo
        invariant forall k :: k in h.m ==> h.m[k] == m[k]
        decreases |todo|
      {
        var k :| k in todo;
        h.Set(k, m[k]);
        todo := todo - {k};
      }
    }
  }
}
