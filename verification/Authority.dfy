/** Who may decide a link (engine/engine.go:620-641): the user it names or, if it names none, whoever goes by its role,
    with the letters A to Z in either case. */
module Authority {
  import opened Model
  import opened Machine

  /** The same character, or the other case of a letter. */
  predicate SameLetter(c: char, d: char) {
    || c == d
    || ('A' <= c <= 'Z' && d as int == c as int + 32)
    || ('a' <= c <= 'z' && d as int == c as int - 32)
  }

  predicate SameName(a: string, b: string) {
    |a| == |b| && forall k :: 0 <= k < |a| ==> SameLetter(a[k], b[k])
  }

  /** The name the link asks for. */
  function NameOn(link: Approver): string {
    if link.user != "" then link.user else link.role
  }

  /** `who` may decide the link of this approval that is pending. */
  predicate Decides(run: RunState, s: StepName, who: string) {
    && s in run.steps && run.steps[s].approval.Some?
    && var a := run.steps[s].approval.value;
       a.status == LinkPending && a.index < |a.chain| && who != "" && SameName(who, NameOn(a.chain[a.index]))
  }

  lemma LowerIff(c: char, d: char)
    ensures Lower(c) == Lower(d) <==> SameLetter(c, d)
  {
  }

  /** Folding the case identifies exactly the names that agree letter by letter up to case. */
  lemma EqualFoldIff(a: string, b: string)
    ensures EqualFold(a, b) <==> SameName(a, b)
  {
    hide SameLetter, Lower;
    forall k | 0 <= k < |a| && k < |b| ensures Lower(a[k]) == Lower(b[k]) <==> SameLetter(a[k], b[k]) {
      LowerIff(a[k], b[k]);
    }
  }

  lemma AuthorizedIff(chain: seq<Approver>, index: int, who: string)
    ensures Authorized(chain, index, who) <==>
              0 <= index < |chain| && who != "" && SameName(who, NameOn(chain[index]))
  {
    hide EqualFold, SameName;
    if 0 <= index < |chain| { EqualFoldIff(who, NameOn(chain[index])); }
  }

  lemma MayDecideIff(run: RunState, s: StepName, who: string)
    ensures MayDecide(run, s, who) <==> Decides(run, s, who)
  {
    hide Authorized, SameName;
    if s in run.steps && run.steps[s].approval.Some? {
      AuthorizedIff(run.steps[s].approval.value.chain, run.steps[s].approval.value.index, who);
    }
  }

  predicate NoCapitals(a: string) {
    forall k :: 0 <= k < |a| ==> !('A' <= a[k] <= 'Z')
  }

  /** Names without capitals are the same only if they are equal. */
  lemma PlainNames(a: string, b: string)
    requires NoCapitals(a) && NoCapitals(b) && SameName(a, b)
    ensures a == b
  {
    forall k | 0 <= k < |a| ensures a[k] == b[k] { assert SameLetter(a[k], b[k]); }
  }

  /** A link that names a user is decided by nobody but that user, whatever its role. */
  lemma RoleDoesNotDecide(chain: seq<Approver>, index: nat, who: string)
    requires index < |chain| && chain[index].user != "" && !SameName(who, chain[index].user)
    ensures !Authorized(chain, index, who)
  {
    AuthorizedIff(chain, index, who);
  }

  /** Being the same name is an equivalence: who decides a link does not depend on how its name is written. */
  lemma SameNames(a: string, b: string, c: string)
    ensures SameName(a, a) && (SameName(a, b) <==> SameName(b, a))
    ensures SameName(a, b) && SameName(b, c) ==> SameName(a, c)
  {
    hide SameName, EqualFold;
    EqualFoldIff(a, a);
    EqualFoldIff(a, b);
    EqualFoldIff(b, a);
    EqualFoldIff(b, c);
    EqualFoldIff(a, c);
    Folds(a, b, c);
  }

  lemma Folds(a: string, b: string, c: string)
    ensures EqualFold(a, a) && (EqualFold(a, b) <==> EqualFold(b, a))
    ensures EqualFold(a, b) && EqualFold(b, c) ==> EqualFold(a, c)
  {
  }
}
