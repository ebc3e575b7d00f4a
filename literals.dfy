/** Equalities between string literals, each joining one more piece onto a
    longer literal. They carry the byte-for-byte scenario bodies in module
    Scenarios; each is a fact about literals alone. */
module Literals {
  lemma TermBytes1()
    ensures "{ \"query\" :  { \"term\" :  { \""
      + "testField1"
      == "{ \"query\" :  { \"term\" :  { \"testField1"
  {
  }

  lemma TermBytes2()
    ensures "{ \"query\" :  { \"term\" :  { \"testField1"
      + "\" : \""
      == "{ \"query\" :  { \"term\" :  { \"testField1\" : \""
  {
  }

  lemma TermBytes3()
    ensures "{ \"query\" :  { \"term\" :  { \"testField1\" : \""
      + "testVal"
      == "{ \"query\" :  { \"term\" :  { \"testField1\" : \"testVal"
  {
  }

  lemma TermBytes4()
    ensures "{ \"query\" :  { \"term\" :  { \"testField1\" : \"testVal"
      + "\" }  }  } "
      == "{ \"query\" :  { \"term\" :  { \"testField1\" : \"testVal\" }  }  } "
  {
  }

  lemma MustBytes1()
    ensures "{ \"query\" :  { \"must\" :  [  { \"term\" :  { \""
      + "testField1"
      == "{ \"query\" :  { \"must\" :  [  { \"term\" :  { \"testField1"
  {
  }

  lemma MustBytes2()
    ensures "{ \"query\" :  { \"must\" :  [  { \"term\" :  { \"testField1"
      + "\" : \""
      == "{ \"query\" :  { \"must\" :  [  { \"term\" :  { \"testField1\" : \""
  {
  }

  lemma MustBytes3()
    ensures "{ \"query\" :  { \"must\" :  [  { \"term\" :  { \"testField1\" : \""
      + "testVal1"
      == "{ \"query\" :  { \"must\" :  [  { \"term\" :  { \"testField1\" : \"testVal1"
  {
  }

  lemma MustBytes4()
    ensures "{ \"query\" :  { \"must\" :  [  { \"term\" :  { \"testField1\" : \"testVal1"
      + "\" }  } , { \"term\" :  { \""
      == "{ \"query\" :  { \"must\" :  [  { \"term\" :  { \"testField1\" : \"testVal1\" }  } , { \"term\" :  { \""
  {
  }

  lemma MustBytes5()
    ensures "{ \"query\" :  { \"must\" :  [  { \"term\" :  { \"testField1\" : \"testVal1\" }  } , { \"term\" :  { \""
      + "testField2"
      == "{ \"query\" :  { \"must\" :  [  { \"term\" :  { \"testField1\" : \"testVal1\" }  } , { \"term\" :  { \"testField2"
  {
  }

  lemma MustBytes6()
    ensures "{ \"query\" :  { \"must\" :  [  { \"term\" :  { \"testField1\" : \"testVal1\" }  } , { \"term\" :  { \"testField2"
      + "\" : \""
      == "{ \"query\" :  { \"must\" :  [  { \"term\" :  { \"testField1\" : \"testVal1\" }  } , { \"term\" :  { \"testField2\" : \""
  {
  }

  lemma MustBytes7()
    ensures "{ \"query\" :  { \"must\" :  [  { \"term\" :  { \"testField1\" : \"testVal1\" }  } , { \"term\" :  { \"testField2\" : \""
      + "testVal2"
      == "{ \"query\" :  { \"must\" :  [  { \"term\" :  { \"testField1\" : \"testVal1\" }  } , { \"term\" :  { \"testField2\" : \"testVal2"
  {
  }

  lemma MustBytes8()
    ensures "{ \"query\" :  { \"must\" :  [  { \"term\" :  { \"testField1\" : \"testVal1\" }  } , { \"term\" :  { \"testField2\" : \"testVal2"
      + "\" }  }  ]  }  } "
      == "{ \"query\" :  { \"must\" :  [  { \"term\" :  { \"testField1\" : \"testVal1\" }  } , { \"term\" :  { \"testField2\" : \"testVal2\" }  }  ]  }  } "
  {
  }

  lemma MustJoinHead()
    ensures "{ \"query\" :  { \"must\" :  [  { " + "\"term\" :  { \"" == "{ \"query\" :  { \"must\" :  [  { \"term\" :  { \""
  {
  }

  lemma MustJoinMiddle1()
    ensures "\" } " + " } , { " == "\" }  } , { "
  {
  }

  lemma MustJoinMiddle2()
    ensures "\" }  } , { " + "\"term\" :  { \"" == "\" }  } , { \"term\" :  { \""
  {
  }

  lemma MustJoinTail()
    ensures "\" } " + " }  ]  }  } " == "\" }  }  ]  }  } "
  {
  }
}
